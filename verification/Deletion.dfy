/**
 What deletion cannot be taken back: over every run, with faults at any call and acts of others between any two, an
 object being deleted stays so until it goes, keeps its key and labels, and gains no finalizer.
 */
module Deletion {
  import opened Wrappers
  import opened Documents
  import opened Selectors
  import opened Resources
  import opened Worlds
  import opened Pass
  import opened NoOrphans
  import opened NoStrands
  import FinalizerNames

  /** From one world to a later one. */
  ghost predicate Ages(w: World, w': World) {
    WF(w') && Follows(w, w')
  }

  lemma AgesTransitive(a: World, b: World, c: World)
    requires Ages(a, b) && Ages(b, c)
    ensures Ages(a, c)
  {
  }

  lemma ProcessAges(p: Params, s: State, i: Instance, organization: string, items: seq<Object>)
    requires WF(s.w) && forall o | o in items :: o.uid < s.w.nextUid
    ensures Ages(s.w, Process(p, s, i, organization, items).s.w)
  {
    var m := if i.deleting then Outcome(s, true) else MarkAll(p, s, items);
    MarkAllEvolves(p, s, items);
    SettleAllMoves(p, m.s, i, organization, items);
    AgesTransitive(s.w, m.s.w, SettleAll(p, m.s, i, organization, items).s.w);
  }

  lemma ReconcileKindAges(p: Params, s: State, i: Instance, kind: Kind, selector: Option<LabelSelector>, organization: string)
    requires WF(s.w)
    ensures Ages(s.w, ReconcileKind(p, s, i, kind, selector, organization).s.w)
  {
    BeginEvolves(p, s);
    SnapshotIsKnown(p, s, kind, selector);
    var b := Begin(p, s).s;
    ProcessAges(p, b, i, organization, Snapshot(p, s, kind, selector));
    AgesTransitive(s.w, b.w, Process(p, b, i, organization, Snapshot(p, s, kind, selector)).s.w);
  }

  lemma {:induction false} ReconcileOwnedAges(p: Params, s: State, i: Instance, orgs: seq<Object>)
    requires WF(s.w) && forall o | o in orgs :: o.spec.OrganizationSpec?
    ensures Ages(s.w, ReconcileOwned(p, s, i, orgs).s.w)
    decreases |orgs|
  {
    if orgs != [] {
      var selector, id := orgs[0].spec.resourceSelector, orgs[0].Id();
      ReconcileKindAges(p, s, i, FeatureKind, selector, id);
      var f := ReconcileKind(p, s, i, FeatureKind, selector, id);
      ReconcileKindAges(p, f.s, i, ClientKind, selector, id);
      var c := ReconcileKind(p, f.s, i, ClientKind, selector, id);
      AgesTransitive(s.w, f.s.w, c.s.w);
      ReconcileOwnedAges(p, c.s, i, orgs[1..]);
      AgesTransitive(s.w, c.s.w, ReconcileOwned(p, c.s, i, orgs[1..]).s.w);
    }
  }

  lemma ReconcileAllAges(p: Params, s: State, i: Instance)
    requires WF(s.w)
    ensures Ages(s.w, ReconcileAll(p, s, i).s.w)
  {
    var s0 := s.(catalog := []);
    ReconcileKindAges(p, s0, i, UserKind, p.selector, "");
    var u := ReconcileKind(p, s0, i, UserKind, p.selector, "");
    ReconcileKindAges(p, u.s, i, OrganizationKind, p.selector, "");
    var o := ReconcileKind(p, u.s, i, OrganizationKind, p.selector, "");
    AgesTransitive(s.w, u.s.w, o.s.w);
    SnapshotKinds(p, u.s, p.selector);
    var orgs := Snapshot(p, u.s, OrganizationKind, p.selector);
    ReconcileOwnedAges(p, o.s, i, orgs);
    AgesTransitive(s.w, o.s.w, ReconcileOwned(p, o.s, i, orgs).s.w);
  }

  /** A patch of the instance's finalizers: refused if the instance is being deleted and would gain one. */
  lemma PatchInstanceAges(p: Params, s: State, finalizers: seq<string>)
    requires WF(s.w)
    ensures var b, r := Begin(p, s).s.w, PatchInstance(p, s, finalizers);
            && Ages(s.w, r.s.w)
            && (b.instance.Some? && b.instance.value.deleting && r.s.w.instance.Some? ==>
                  r.s.w.instance.value.deleting && forall f | f in r.s.w.instance.value.finalizers :: f in b.instance.value.finalizers)
  {
    BeginEvolves(p, s);
  }

  lemma ReconcileAges(p: Params, s: State)
    requires WF(s.w)
    ensures Ages(s.w, Reconcile(p, s).s.w)
  {
    BeginEvolves(p, s);
    var b := Begin(p, s);
    if b.ok && b.s.w.instance.Some? && !p.suspend {
      var i := b.s.w.instance.value;
      PatchInstanceAges(p, b.s, With(i.finalizers, FinalizerNames.FINALIZER));
      var m := if i.deleting then b else PatchInstance(p, b.s, With(i.finalizers, FinalizerNames.FINALIZER));
      AgesTransitive(s.w, b.s.w, m.s.w);
      ReconcileAllAges(p, m.s, i);
      var r := ReconcileAll(p, m.s, i);
      AgesTransitive(s.w, m.s.w, r.s.w);
      PatchInstanceAges(p, r.s, Without(i.finalizers, FinalizerNames.FINALIZER));
      AgesTransitive(s.w, r.s.w, PatchInstance(p, r.s, Without(i.finalizers, FinalizerNames.FINALIZER)).s.w);
    }
  }

  lemma {:induction false} RunAges(p: Params, w: World, rounds: seq<Round>)
    requires WF(w)
    ensures Ages(w, Run(p, w, rounds))
    decreases |rounds|
  {
    if rounds != [] {
      var v := After(p, w, rounds[0]);
      match rounds[0] {
        case Attempt(ticks) => ReconcileAges(p, State(w, ticks, []));
        case Interval(events) => EventsEvolve(p, w, events);
      }
      RunAges(p, v, rounds[1..]);
      AgesTransitive(w, v, Run(p, w, rounds));
    }
  }

  /** Deletion is for good: over every run an object being deleted is gone, or still being deleted with the key and
      labels it had and no finalizer it did not have. */
  lemma DeletionIsForGood(p: Params, w: World, rounds: seq<Round>, u: nat)
    requires WF(w) && u in w.objects && w.objects[u].deleting
    ensures var x := Run(p, w, rounds);
            u in x.objects ==>
              && x.objects[u].deleting && x.objects[u].Key() == w.objects[u].Key() && x.objects[u].labels == w.objects[u].labels
              && x.objects[u].finalizers != [] && forall f | f in x.objects[u].finalizers :: f in w.objects[u].finalizers
  {
    RunAges(p, w, rounds);
  }
}
