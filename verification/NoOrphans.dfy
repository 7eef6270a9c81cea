/**
 With prune on, every document the controller wrote is backed by an existing object that carries the
 instance's finalizer: on every schedule, with faults at any call and events between any two.
 */
module NoOrphans {
  import opened Wrappers
  import opened Documents
  import opened Selectors
  import opened Resources
  import opened Worlds
  import opened Pass
  import opened Upserts
  import FinalizerNames

  predicate Carries(p: Params, o: Object) {
    p.finalizer in o.finalizers
  }

  ghost predicate Backed(p: Params, w: World, k: DocKey) {
    exists u | u in w.objects :: w.objects[u].Key() == k && Carries(p, w.objects[u])
  }

  ghost predicate Orphanless(p: Params, w: World) {
    forall k | k in Owned(w) :: Backed(p, w, k)
  }

  function OwnSelector(o: Object): Option<LabelSelector> {
    if o.spec.OrganizationSpec? then o.spec.resourceSelector else None
  }

  /** The same object, seen again later. */
  predicate Later(o: Object, o': Object) {
    && o.uid == o'.uid
    && o.Key() == o'.Key()
    && o.labels == o'.labels
    && OwnSelector(o) == OwnSelector(o')
    && (o.deleting ==> o'.deleting && forall f | f in o'.finalizers :: f in o.finalizers)
  }

  /** Objects come with new uids only, and keep key, labels and selector. */
  ghost predicate Follows(w: World, w': World) {
    && w.nextUid <= w'.nextUid
    && forall u | u in w'.objects && u < w.nextUid :: u in w.objects && Later(w.objects[u], w'.objects[u])
  }

  /** Carrying objects still exist and carry, but for those with a uid in except. */
  ghost predicate Keeps(p: Params, w: World, w': World, except: set<nat>) {
    forall u | u in w.objects && Carries(p, w.objects[u]) && u !in except :: u in w'.objects && Carries(p, w'.objects[u])
  }

  ghost predicate Evolves(p: Params, w: World, w': World, except: set<nat>) {
    WF(w') && Follows(w, w') && Keeps(p, w, w', except)
  }

  /** If the listed object still exists, what is there is that object seen later. */
  ghost predicate Known(w: World, o: Object) {
    o.uid < w.nextUid && (o.uid in w.objects ==> Later(o, w.objects[o.uid]))
  }

  /** The listed object still exists and carries. */
  ghost predicate Holds(p: Params, w: World, o: Object) {
    o.uid in w.objects && Carries(p, w.objects[o.uid])
  }

  lemma EvolvesTransitive(p: Params, w: World, w': World, w'': World, a: set<nat>, b: set<nat>)
    requires WF(w) && Evolves(p, w, w', a) && Evolves(p, w', w'', b)
    ensures Evolves(p, w, w'', a + b)
  {
  }

  lemma EvolvesKeepsOrphanless(p: Params, w: World, w': World)
    requires WF(w) && Evolves(p, w, w', {}) && Orphanless(p, w) && Owned(w') <= Owned(w)
    ensures Orphanless(p, w')
  {
  }

  lemma UpdateEvolves(p: Params, w: World, uid: nat, o: Object)
    requires WF(w) && uid in w.objects && Later(w.objects[uid], o)
    requires o.deleting ==> o.finalizers != []
    ensures Evolves(p, w, w.(objects := w.objects[uid := o]), if Carries(p, o) then {} else {uid})
    ensures Carries(p, o) == Carries(p, w.objects[uid]) ==> Evolves(p, w, w.(objects := w.objects[uid := o]), {})
  {
  }

  lemma DropEvolves(p: Params, w: World, uid: nat)
    requires WF(w) && uid in w.objects
    ensures Evolves(p, w, w.(objects := w.objects - {uid}), {uid})
    ensures !Carries(p, w.objects[uid]) ==> Evolves(p, w, w.(objects := w.objects - {uid}), {})
  {
  }

  lemma CreateEvolves(p: Params, w: World, o: Object)
    requires WF(w) && o.uid == w.nextUid && !o.deleting
    requires forall u | u in w.objects :: w.objects[u].Key() != o.Key()
    ensures Evolves(p, w, w.(objects := w.objects[w.nextUid := o], nextUid := w.nextUid + 1), {})
  {
  }

  lemma PatchedEvolves(p: Params, w: World, uid: nat, finalizers: seq<string>)
    requires WF(w) && uid in w.objects && !Refused(w.objects[uid], finalizers)
    ensures var w' := w.(objects := Patched(w.objects, uid, finalizers));
            && Evolves(p, w, w', if p.finalizer in finalizers then {} else {uid})
            && ((p.finalizer in finalizers) == Carries(p, w.objects[uid]) ==> Evolves(p, w, w', {}))
  {
    var o := w.objects[uid];
    if o.deleting && finalizers == [] {
      DropEvolves(p, w, uid);
    } else {
      UpdateEvolves(p, w, uid, o.(finalizers := finalizers));
    }
  }

  lemma EventOwns(p: Params, w: World, e: Event)
    ensures Owned(Applied(p, w, e)) <= Owned(w)
  {
  }

  /** Documents and payloads may change freely as long as what is written stays backed. */
  lemma StoreEvolves(p: Params, w: World, w': World)
    requires WF(w) && w'.objects == w.objects && w'.nextUid == w.nextUid
    ensures Evolves(p, w, w', {})
    ensures Orphanless(p, w) && (forall k | k in Owned(w') :: k in Owned(w) || Backed(p, w, k)) ==> Orphanless(p, w')
  {
  }

  lemma ObjectEventEvolves(p: Params, w: World, e: Event)
    requires WF(w) && (e.Create? || e.Edit? || e.SetOthers?)
    ensures Evolves(p, w, Applied(p, w, e), {})
  {
    var w' := Applied(p, w, e);
    if w'.objects == w.objects && w'.nextUid == w.nextUid {
      StoreEvolves(p, w, w');
    } else {
      match e
      case Create(o) => CreateEvolves(p, w, o.(uid := w.nextUid, deleting := false));
      case Edit(uid, spec) => UpdateEvolves(p, w, uid, w.objects[uid].(spec := spec));
      case SetOthers(uid, finalizers) => PatchedEvolves(p, w, uid, finalizers);
    }
  }

  lemma EventEvolves(p: Params, w: World, e: Event)
    requires WF(w)
    ensures Evolves(p, w, Applied(p, w, e), {})
  {
    if e.Create? || e.Edit? || e.SetOthers? {
      ObjectEventEvolves(p, w, e);
    } else if e.Delete? && e.uid in w.objects && w.objects[e.uid].Kind() == e.kind {
      if w.objects[e.uid].finalizers == [] {
        DropEvolves(p, w, e.uid);
      } else {
        UpdateEvolves(p, w, e.uid, w.objects[e.uid].(deleting := true));
      }
    } else {
      StoreEvolves(p, w, Applied(p, w, e));
    }
  }

  lemma {:induction false} EventsEvolve(p: Params, w: World, events: seq<Event>)
    requires WF(w)
    ensures Evolves(p, w, AppliedAll(p, w, events), {}) && Owned(AppliedAll(p, w, events)) <= Owned(w)
    decreases |events|
  {
    if events != [] {
      EventEvolves(p, w, events[0]);
      EventOwns(p, w, events[0]);
      EventsEvolve(p, Applied(p, w, events[0]), events[1..]);
      EvolvesTransitive(p, w, Applied(p, w, events[0]), AppliedAll(p, w, events), {}, {});
    }
  }

  lemma BeginEvolves(p: Params, s: State)
    requires WF(s.w)
    ensures Evolves(p, s.w, Begin(p, s).s.w, {}) && Owned(Begin(p, s).s.w) <= Owned(s.w)
  {
    if s.ticks != [] {
      EventsEvolve(p, s.w, s.ticks[0].events);
    }
  }

  lemma PatchEvolves(p: Params, s: State, uid: nat, finalizers: seq<string>)
    requires WF(s.w)
    ensures var r := Patch(p, s, uid, finalizers);
            && Evolves(p, s.w, r.s.w, if p.finalizer in finalizers then {} else {uid})
            && Owned(r.s.w) <= Owned(s.w)
            && (r.ok && p.finalizer in finalizers ==> uid in r.s.w.objects && Carries(p, r.s.w.objects[uid]))
  {
    BeginEvolves(p, s);
    var b := Begin(p, s);
    var r := Patch(p, s, uid, finalizers);
    if r.ok {
      PatchedEvolves(p, b.s.w, uid, finalizers);
      EvolvesTransitive(p, s.w, b.s.w, r.s.w, {}, if p.finalizer in finalizers then {} else {uid});
    }
  }

  /** After the first loop every listed object that was not being deleted carries the finalizer. */
  lemma {:induction false} MarkAllEvolves(p: Params, s: State, items: seq<Object>)
    requires WF(s.w)
    ensures var r := MarkAll(p, s, items);
            && Evolves(p, s.w, r.s.w, {})
            && Owned(r.s.w) <= Owned(s.w)
            && (r.ok ==> forall o | o in items && !o.deleting :: Holds(p, r.s.w, o))
    decreases |items|
  {
    if items != [] {
      var o := items[0];
      var a := AddFinalizer(p, s, o);
      if !o.deleting {
        PatchEvolves(p, s, o.uid, With(o.finalizers, p.finalizer));
      }
      if a.ok {
        var s' := if o.deleting then a.s else a.s.(catalog := Catalogued(a.s.catalog, o));
        MarkAllEvolves(p, s', items[1..]);
        EvolvesTransitive(p, s.w, s'.w, MarkAll(p, s, items).s.w, {}, {});
      }
    }
  }

  lemma {:induction false} GatherEvolves(p: Params, s: State, bindings: seq<Binding>)
    requires WF(s.w)
    ensures var r := Gather(p, s, bindings).out; Evolves(p, s.w, r.s.w, {}) && Owned(r.s.w) <= Owned(s.w)
    decreases |bindings|
  {
    if bindings != [] {
      BeginEvolves(p, s);
      var b := Begin(p, s);
      GatherEvolves(p, b.s, bindings[1..]);
      EvolvesTransitive(p, s.w, b.s.w, Gather(p, b.s, bindings[1..]).out.s.w, {}, {});
    }
  }

  lemma ClearIsSafe(p: Params, s: State, environment: string, organization: string)
    requires WF(s.w) && Orphanless(p, s.w)
    ensures var r := ClearCache(p, s, environment, organization); Evolves(p, s.w, r.s.w, {}) && Orphanless(p, r.s.w)
  {
    BeginEvolves(p, s);
    var b := Begin(p, s);
    EvolvesKeepsOrphanless(p, s.w, b.s.w);
    var r := ClearCache(p, s, environment, organization);
    StoreEvolves(p, b.s.w, r.s.w);
    EvolvesTransitive(p, s.w, b.s.w, r.s.w, {}, {});
  }

  /** The controller owns exactly what it wrote last: an upsert adds its document, an act of somebody else takes it. */
  lemma OwnedExactly(p: Params, w: World, k: DocKey, r: Upserted<Doc>, d: Doc)
    ensures Owned(Stored(w, k, r)) == Owned(w) + {k}
    ensures Owned(Applied(p, w, WriteDoc(d))) == Owned(w) - {d.Key()}
    ensures Owned(Applied(p, w, RemoveDoc(k))) == Owned(w) - {k}
  {
  }

  /** An upsert of a carrying object keeps every document backed, the new one included. */
  lemma PutIsSafe(p: Params, s: State, organization: string, members: seq<Member>, o: Object)
    requires WF(s.w) && Orphanless(p, s.w) && Known(s.w, o) && Holds(p, s.w, o)
    ensures var r := Put(p, s, organization, members, o); Evolves(p, s.w, r.s.w, {}) && Orphanless(p, r.s.w)
  {
    BeginEvolves(p, s);
    var b := Begin(p, s);
    EvolvesKeepsOrphanless(p, s.w, b.s.w);
    if b.ok {
      var c := Computed(p, b.s.w.secrets, organization, members, o, Get(b.s.w.docs, o.Key()), s.ticks[0].entropy);
      if c.Some? {
        var s' := b.s.(w := Stored(b.s.w, o.Key(), c.value));
        assert b.s.w.objects[o.uid].Key() == o.Key();
        StoreEvolves(p, b.s.w, s'.w);
        EvolvesTransitive(p, s.w, b.s.w, s'.w, {}, {});
        if o.spec.ClientSpec? && c.value.wrote {
          ClearIsSafe(p, s', o.spec.environment, organization);
          EvolvesTransitive(p, s.w, s'.w, ClearCache(p, s', o.spec.environment, organization).s.w, {}, {});
        }
      }
    }
  }

  /** Releasing an object whose document is not the controller's keeps every document backed. */
  lemma ReleaseIsSafe(p: Params, s: State, o: Object)
    requires WF(s.w) && Orphanless(p, s.w) && Known(s.w, o) && o.Key() !in Owned(s.w)
    ensures var r := Release(p, s, o); Evolves(p, s.w, r.s.w, {o.uid}) && Orphanless(p, r.s.w)
  {
    WithoutMembers(o.finalizers, p.finalizer);
    var finalizers := Without(o.finalizers, p.finalizer);
    PatchEvolves(p, s, o.uid, finalizers);
    BeginEvolves(p, s);
    var b, r := Begin(p, s), Release(p, s, o);
    EvolvesKeepsOrphanless(p, s.w, b.s.w);
    if r.ok {
      forall k | k in Owned(r.s.w)
        ensures Backed(p, r.s.w, k)
      {
        var u :| u in b.s.w.objects && b.s.w.objects[u].Key() == k && Carries(p, b.s.w.objects[u]);
        assert u != o.uid;
        assert r.s.w.objects[u] == b.s.w.objects[u];
      }
    }
  }

  lemma RetireIsSafe(p: Params, s: State, o: Object)
    requires WF(s.w) && Orphanless(p, s.w) && Known(s.w, o) && p.prune
    ensures var r := Retire(p, s, o); Evolves(p, s.w, r.s.w, {o.uid}) && Orphanless(p, r.s.w)
  {
    BeginEvolves(p, s);
    var b, d := Begin(p, s), Purge(p, s, o.Key());
    EvolvesKeepsOrphanless(p, s.w, b.s.w);
    if d.ok {
      StoreEvolves(p, b.s.w, d.s.w);
      EvolvesTransitive(p, s.w, b.s.w, d.s.w, {}, {});
      ReleaseIsSafe(p, d.s, o);
      EvolvesTransitive(p, s.w, d.s.w, Release(p, d.s, o).s.w, {}, {o.uid});
    }
  }

  /** What is listed, and for a live instance marked, can be settled: a live object carries. */
  ghost predicate Ready(p: Params, w: World, i: Instance, o: Object) {
    Known(w, o) && (!Retiring(i, o) ==> Holds(p, w, o))
  }

  lemma SettleIsSafe(p: Params, s: State, i: Instance, organization: string, members: seq<Member>, o: Object)
    requires WF(s.w) && Orphanless(p, s.w) && Ready(p, s.w, i, o) && p.prune
    ensures var r := Settle(p, s, i, organization, members, o); Evolves(p, s.w, r.s.w, {o.uid}) && Orphanless(p, r.s.w)
  {
    if Retiring(i, o) {
      RetireIsSafe(p, s, o);
    } else {
      PutIsSafe(p, s, organization, members, o);
    }
  }

  lemma SettleOneIsSafe(p: Params, s: State, i: Instance, organization: string, o: Object)
    requires WF(s.w) && Orphanless(p, s.w) && Ready(p, s.w, i, o) && p.prune
    ensures var r := SettleOne(p, s, i, organization, o); Evolves(p, s.w, r.s.w, {o.uid}) && Orphanless(p, r.s.w)
  {
    if o.spec.OrganizationSpec? {
      GatherEvolves(p, s, o.spec.bindings);
      var g := Gather(p, s, o.spec.bindings);
      EvolvesKeepsOrphanless(p, s.w, g.out.s.w);
      if g.out.ok {
        SettleIsSafe(p, g.out.s, i, organization, g.members, o);
        EvolvesTransitive(p, s.w, g.out.s.w, SettleOne(p, s, i, organization, o).s.w, {}, {o.uid});
      }
    } else {
      SettleIsSafe(p, s, i, organization, [], o);
    }
  }

  lemma ReadyLater(p: Params, w: World, w': World, i: Instance, o: Object, except: set<nat>)
    requires WF(w) && Ready(p, w, i, o) && Evolves(p, w, w', except) && o.uid !in except
    ensures Ready(p, w', i, o)
  {
  }

  lemma FollowsTransitive(w: World, w': World, w'': World)
    requires Follows(w, w') && Follows(w', w'')
    ensures Follows(w, w'')
  {
  }

  lemma {:induction false} SettleAllIsSafe(p: Params, s: State, i: Instance, organization: string, items: seq<Object>)
    requires WF(s.w) && Orphanless(p, s.w) && p.prune && Apart(items)
    requires forall o | o in items :: Ready(p, s.w, i, o)
    ensures var r := SettleAll(p, s, i, organization, items); WF(r.s.w) && Follows(s.w, r.s.w) && Orphanless(p, r.s.w)
    decreases |items|
  {
    if items != [] {
      SettleOneIsSafe(p, s, i, organization, items[0]);
      var a := SettleOne(p, s, i, organization, items[0]);
      if a.ok {
        forall o | o in items[1..]
          ensures Ready(p, a.s.w, i, o)
        {
          ReadyLater(p, s.w, a.s.w, i, o, {items[0].uid});
        }
        SettleAllIsSafe(p, a.s, i, organization, items[1..]);
        FollowsTransitive(s.w, a.s.w, SettleAll(p, s, i, organization, items).s.w);
      }
    }
  }

  lemma SnapshotIsKnown(p: Params, s: State, kind: Kind, selector: Option<LabelSelector>)
    requires WF(s.w)
    ensures var w := Begin(p, s).s.w;
            && Apart(Snapshot(p, s, kind, selector))
            && forall o | o in Snapshot(p, s, kind, selector) ::
                 Known(w, o) && Picked(o, kind, selector) && o.uid in w.objects && w.objects[o.uid] == o
  {
    BeginEvolves(p, s);
    var w := Begin(p, s).s.w;
    ListDistinct(w, kind, selector);
  }

  lemma ProcessIsSafe(p: Params, s: State, i: Instance, organization: string, items: seq<Object>)
    requires WF(s.w) && Orphanless(p, s.w) && p.prune && Apart(items) && forall o | o in items :: Known(s.w, o)
    ensures var r := Process(p, s, i, organization, items); WF(r.s.w) && Orphanless(p, r.s.w)
  {
    MarkAllEvolves(p, s, items);
    var m := if i.deleting then Outcome(s, true) else MarkAll(p, s, items);
    EvolvesKeepsOrphanless(p, s.w, m.s.w);
    if m.ok {
      SettleAllIsSafe(p, m.s, i, organization, items);
    }
  }

  lemma ReconcileKindIsSafe(p: Params, s: State, i: Instance, kind: Kind, selector: Option<LabelSelector>, organization: string)
    requires WF(s.w) && Orphanless(p, s.w) && p.prune
    ensures var r := ReconcileKind(p, s, i, kind, selector, organization); WF(r.s.w) && Orphanless(p, r.s.w)
  {
    BeginEvolves(p, s);
    var b := Begin(p, s);
    EvolvesKeepsOrphanless(p, s.w, b.s.w);
    SnapshotIsKnown(p, s, kind, selector);
    ProcessIsSafe(p, b.s, i, organization, Snapshot(p, s, kind, selector));
  }

  lemma {:induction false} ReconcileOwnedIsSafe(p: Params, s: State, i: Instance, orgs: seq<Object>)
    requires forall o | o in orgs :: o.spec.OrganizationSpec?
    requires WF(s.w) && Orphanless(p, s.w) && p.prune
    ensures var r := ReconcileOwned(p, s, i, orgs); WF(r.s.w) && Orphanless(p, r.s.w)
    decreases |orgs|
  {
    if orgs != [] {
      var selector, id := orgs[0].spec.resourceSelector, orgs[0].Id();
      ReconcileKindIsSafe(p, s, i, FeatureKind, selector, id);
      var f := ReconcileKind(p, s, i, FeatureKind, selector, id);
      ReconcileKindIsSafe(p, f.s, i, ClientKind, selector, id);
      ReconcileOwnedIsSafe(p, ReconcileKind(p, f.s, i, ClientKind, selector, id).s, i, orgs[1..]);
    }
  }

  lemma PatchInstanceIsSafe(p: Params, s: State, finalizers: seq<string>)
    requires WF(s.w) && Orphanless(p, s.w)
    ensures var r := PatchInstance(p, s, finalizers); WF(r.s.w) && Orphanless(p, r.s.w)
  {
    BeginEvolves(p, s);
    var w, w' := Begin(p, s).s.w, PatchInstance(p, s, finalizers).s.w;
    EvolvesKeepsOrphanless(p, s.w, w);
    assert w' == w.(instance := w'.instance);
    StoreEvolves(p, w, w');
  }

  lemma ReconcileIsSafe(p: Params, s: State)
    requires WF(s.w) && Orphanless(p, s.w) && p.prune
    ensures var r := Reconcile(p, s); WF(r.s.w) && Orphanless(p, r.s.w)
  {
    BeginEvolves(p, s);
    var b := Begin(p, s);
    EvolvesKeepsOrphanless(p, s.w, b.s.w);
    if b.ok && b.s.w.instance.Some? && !p.suspend {
      var i := b.s.w.instance.value;
      PatchInstanceIsSafe(p, b.s, With(i.finalizers, FinalizerNames.FINALIZER));
      var m := if i.deleting then b else PatchInstance(p, b.s, With(i.finalizers, FinalizerNames.FINALIZER));
      if m.ok {
        var u := ReconcileKind(p, m.s.(catalog := []), i, UserKind, p.selector, "");
        ReconcileKindIsSafe(p, m.s.(catalog := []), i, UserKind, p.selector, "");
        var o := ReconcileKind(p, u.s, i, OrganizationKind, p.selector, "");
        ReconcileKindIsSafe(p, u.s, i, OrganizationKind, p.selector, "");
        SnapshotKinds(p, u.s, p.selector);
        ReconcileOwnedIsSafe(p, o.s, i, Snapshot(p, u.s, OrganizationKind, p.selector));
        var r := ReconcileAll(p, m.s, i);
        PatchInstanceIsSafe(p, r.s, Without(i.finalizers, FinalizerNames.FINALIZER));
      }
    }
  }

  /** No orphaned documents. Passes may crash at any call, resources come and go between any two calls, and
      others may rewrite documents at will. */
  lemma {:induction false} NoOrphanedDocuments(p: Params, w: World, rounds: seq<Round>)
    requires WF(w) && Orphanless(p, w) && p.prune
    ensures WF(Run(p, w, rounds)) && Orphanless(p, Run(p, w, rounds))
    decreases |rounds|
  {
    if rounds != [] {
      match rounds[0]
      case Attempt(ticks) =>
        ReconcileIsSafe(p, State(w, ticks, []));
        NoOrphanedDocuments(p, Reconcile(p, State(w, ticks, [])).s.w, rounds[1..]);
      case Interval(events) =>
        EventsEvolve(p, w, events);
        EvolvesKeepsOrphanless(p, w, AppliedAll(p, w, events));
        NoOrphanedDocuments(p, AppliedAll(p, w, events), rounds[1..]);
    }
  }
}
