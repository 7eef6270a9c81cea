/**
 As long as no organization is deleted on its own, an object carries the instance's finalizer only while
 the instance exists and carries its own, and one successful pass of a deleting instance releases every
 object: on every schedule.
 */
module NoStrands {
  import opened Wrappers
  import opened Documents
  import opened Selectors
  import opened Resources
  import opened Worlds
  import opened Pass
  import opened NoOrphans
  import FinalizerNames

  ghost predicate InstanceCarries(w: World) {
    w.instance.Some? && FinalizerNames.FINALIZER in w.instance.value.finalizers
  }

  ghost predicate Strandless(p: Params, w: World) {
    (exists u | u in w.objects :: Carries(p, w.objects[u])) ==> InstanceCarries(w)
  }

  predicate Owner(p: Params, org: Object, o: Object) {
    Picked(org, OrganizationKind, p.selector) && Selects(OwnSelector(org), o.labels)
  }

  /** A pass of the instance lists the object: directly, or through an organization it lists. */
  ghost predicate Reachable(p: Params, w: World, o: Object) {
    if o.Kind() == UserKind || o.Kind() == OrganizationKind then Selects(p.selector, o.labels)
    else exists v | v in w.objects :: Owner(p, w.objects[v], o)
  }

  ghost predicate Anchored(p: Params, w: World) {
    forall u | u in w.objects && Carries(p, w.objects[u]) :: Reachable(p, w, w.objects[u])
  }

  predicate SteadyEvents(events: seq<Event>) {
    forall e | e in events :: !(e.Delete? && e.kind == OrganizationKind)
  }

  predicate SteadyTicks(ticks: seq<Tick>) {
    forall t | t in ticks :: SteadyEvents(t.events)
  }

  /** No organization is being deleted. */
  ghost predicate Steady(w: World) {
    forall u | u in w.objects && w.objects[u].Kind() == OrganizationKind :: !w.objects[u].deleting
  }

  ghost predicate OrganizationsStay(w: World, w': World) {
    forall u | u in w.objects && w.objects[u].Kind() == OrganizationKind :: u in w'.objects
  }

  /** Only objects with a uid in marked start to carry. */
  ghost predicate Adds(p: Params, w: World, w': World, marked: set<nat>) {
    forall u | u in w'.objects && Carries(p, w'.objects[u]) && u !in marked :: u in w.objects && Carries(p, w.objects[u])
  }

  ghost predicate Grows(p: Params, w: World, w': World, marked: set<nat>) {
    && WF(w') && Follows(w, w') && Adds(p, w, w', marked)
    && (InstanceCarries(w) ==> InstanceCarries(w'))
  }

  ghost predicate Stays(w: World, w': World) {
    Steady(w) ==> Steady(w') && OrganizationsStay(w, w')
  }

  /** From one state of a pass to a later one. */
  ghost predicate Moves(p: Params, s: State, s': State, marked: set<nat>) {
    && Grows(p, s.w, s'.w, marked)
    && (SteadyTicks(s.ticks) ==> SteadyTicks(s'.ticks) && Stays(s.w, s'.w))
  }

  lemma GrowsTransitive(p: Params, w: World, w': World, w'': World, a: set<nat>, b: set<nat>)
    requires WF(w) && Grows(p, w, w', a) && Grows(p, w', w'', b)
    ensures Grows(p, w, w'', a + b)
  {
  }

  lemma MovesTransitive(p: Params, s: State, s': State, s'': State, a: set<nat>, b: set<nat>)
    requires WF(s.w) && Moves(p, s, s', a) && Moves(p, s', s'', b)
    ensures Moves(p, s, s'', a + b)
  {
  }

  lemma CreateStays(p: Params, w: World, w': World, o: Object)
    requires WF(w) && w'.objects == w.objects[w.nextUid := o] && !Carries(p, o) && !o.deleting
    ensures Adds(p, w, w', {}) && Stays(w, w')
  {
  }

  lemma DropStays(p: Params, w: World, w': World, u: nat)
    requires u in w.objects && w'.objects == w.objects - {u}
    requires w.objects[u].deleting || w.objects[u].Kind() != OrganizationKind
    ensures Adds(p, w, w', {}) && Stays(w, w')
  {
  }

  lemma UpdateStays(p: Params, w: World, w': World, u: nat, o: Object)
    requires u in w.objects && w'.objects == w.objects[u := o] && (Carries(p, o) ==> Carries(p, w.objects[u]))
    ensures Adds(p, w, w', {})
    ensures o.Kind() == w.objects[u].Kind() && (o.deleting ==> w.objects[u].deleting || o.Kind() != OrganizationKind) ==> Stays(w, w')
  {
  }

  lemma EventKeepsInstance(p: Params, w: World, e: Event)
    requires InstanceCarries(w)
    ensures InstanceCarries(Applied(p, w, e))
  {
  }

  lemma DeleteAddsNothing(p: Params, w: World, kind: Kind, u: nat)
    requires WF(w)
    ensures var w' := Applied(p, w, Delete(kind, u)); Adds(p, w, w', {}) && (kind != OrganizationKind ==> Stays(w, w'))
  {
    var w' := Applied(p, w, Delete(kind, u));
    if u in w.objects && w.objects[u].Kind() == kind {
      if w.objects[u].finalizers != [] {
        UpdateStays(p, w, w', u, w.objects[u].(deleting := true));
      } else if kind != OrganizationKind {
        DropStays(p, w, w', u);
      }
    }
  }

  lemma SetOthersAddsNothing(p: Params, w: World, u: nat, finalizers: seq<string>)
    requires WF(w)
    ensures var w' := Applied(p, w, SetOthers(u, finalizers)); Adds(p, w, w', {}) && Stays(w, w')
  {
    var w' := Applied(p, w, SetOthers(u, finalizers));
    if u in w.objects && w'.objects == Patched(w.objects, u, finalizers) && (p.finalizer in finalizers) == Carries(p, w.objects[u]) {
      if w.objects[u].deleting && finalizers == [] {
        DropStays(p, w, w', u);
      } else {
        UpdateStays(p, w, w', u, w.objects[u].(finalizers := finalizers));
      }
    }
  }

  lemma CreateOrEditAddsNothing(p: Params, w: World, e: Event)
    requires WF(w) && (e.Create? || e.Edit?)
    ensures var w' := Applied(p, w, e); Adds(p, w, w', {}) && Stays(w, w')
  {
    var w' := Applied(p, w, e);
    if e.Create? && w' != w {
      CreateStays(p, w, w', e.resource.(uid := w.nextUid, deleting := false));
    } else if e.Edit? && w' != w {
      UpdateStays(p, w, w', e.uid, w.objects[e.uid].(spec := e.spec));
    }
  }

  lemma EventAddsNothing(p: Params, w: World, e: Event)
    requires WF(w)
    ensures Adds(p, w, Applied(p, w, e), {}) && (SteadyEvents([e]) ==> Stays(w, Applied(p, w, e)))
  {
    assert e in [e];
    if e.Delete? {
      DeleteAddsNothing(p, w, e.kind, e.uid);
    } else if e.SetOthers? {
      SetOthersAddsNothing(p, w, e.uid, e.finalizers);
    } else if e.Create? || e.Edit? {
      CreateOrEditAddsNothing(p, w, e);
    } else {
      assert Applied(p, w, e).objects == w.objects;
    }
  }

  lemma EventGrows(p: Params, w: World, e: Event)
    requires WF(w)
    ensures Grows(p, w, Applied(p, w, e), {})
    ensures SteadyEvents([e]) ==> Stays(w, Applied(p, w, e))
  {
    EventEvolves(p, w, e);
    EventAddsNothing(p, w, e);
    if InstanceCarries(w) {
      EventKeepsInstance(p, w, e);
    }
  }

  lemma {:induction false} EventsGrow(p: Params, w: World, events: seq<Event>)
    requires WF(w)
    ensures Grows(p, w, AppliedAll(p, w, events), {})
    ensures SteadyEvents(events) ==> Stays(w, AppliedAll(p, w, events))
    decreases |events|
  {
    if events != [] {
      EventGrows(p, w, events[0]);
      EventsGrow(p, Applied(p, w, events[0]), events[1..]);
      GrowsTransitive(p, w, Applied(p, w, events[0]), AppliedAll(p, w, events), {}, {});
    }
  }

  lemma BeginMoves(p: Params, s: State)
    requires WF(s.w)
    ensures Moves(p, s, Begin(p, s).s, {})
  {
    if s.ticks != [] {
      EventsGrow(p, s.w, s.ticks[0].events);
    }
  }

  lemma PatchedMoves(p: Params, w: World, uid: nat, finalizers: seq<string>)
    requires WF(w) && uid in w.objects && !Refused(w.objects[uid], finalizers)
    ensures var w' := w.(objects := Patched(w.objects, uid, finalizers));
            Grows(p, w, w', if p.finalizer in finalizers then {uid} else {}) && Stays(w, w')
  {
    PatchedEvolves(p, w, uid, finalizers);
  }

  lemma PatchMoves(p: Params, s: State, uid: nat, finalizers: seq<string>)
    requires WF(s.w)
    ensures Moves(p, s, Patch(p, s, uid, finalizers).s, if p.finalizer in finalizers then {uid} else {})
    ensures var r := Patch(p, s, uid, finalizers);
            r.ok && p.finalizer !in finalizers ==> !(uid in r.s.w.objects && Carries(p, r.s.w.objects[uid]))
  {
    BeginMoves(p, s);
    var b, r := Begin(p, s), Patch(p, s, uid, finalizers);
    if r.ok {
      PatchedMoves(p, b.s.w, uid, finalizers);
      MovesTransitive(p, s, b.s, r.s, {}, if p.finalizer in finalizers then {uid} else {});
    }
  }

  function Uids(items: seq<Object>): set<nat> {
    set o | o in items :: o.uid
  }

  lemma {:induction false} MarkAllMoves(p: Params, s: State, items: seq<Object>)
    requires WF(s.w)
    ensures Moves(p, s, MarkAll(p, s, items).s, Uids(items))
    decreases |items|
  {
    if items != [] {
      var o := items[0];
      var a := AddFinalizer(p, s, o);
      if !o.deleting {
        PatchMoves(p, s, o.uid, With(o.finalizers, p.finalizer));
      }
      assert Uids(items) == {o.uid} + Uids(items[1..]);
      if a.ok {
        var s' := if o.deleting then a.s else a.s.(catalog := Catalogued(a.s.catalog, o));
        assert Moves(p, s, s', {o.uid});
        MarkAllMoves(p, s', items[1..]);
        MovesTransitive(p, s, s', MarkAll(p, s, items).s, {o.uid}, Uids(items[1..]));
      }
    }
  }

  lemma {:induction false} GatherMoves(p: Params, s: State, bindings: seq<Binding>)
    requires WF(s.w)
    ensures Moves(p, s, Gather(p, s, bindings).out.s, {})
    decreases |bindings|
  {
    if bindings != [] {
      BeginMoves(p, s);
      var b := Begin(p, s);
      GatherMoves(p, b.s, bindings[1..]);
      MovesTransitive(p, s, b.s, Gather(p, b.s, bindings[1..]).out.s, {}, {});
    }
  }

  /** A call that touches neither objects nor instance. */
  lemma StoreMoves(p: Params, s: State, r: State)
    requires WF(s.w)
    requires var b := Begin(p, s).s;
             r.ticks == b.ticks && r.w.objects == b.w.objects && r.w.nextUid == b.w.nextUid && r.w.instance == b.w.instance
    ensures Moves(p, s, r, {})
  {
    BeginMoves(p, s);
  }

  lemma PutMoves(p: Params, s: State, organization: string, members: seq<Member>, o: Object)
    requires WF(s.w)
    ensures Moves(p, s, Put(p, s, organization, members, o).s, {})
  {
    BeginMoves(p, s);
    var b := Begin(p, s);
    var r := Put(p, s, organization, members, o);
    if b.ok {
      var c := Computed(p, b.s.w.secrets, organization, members, o, Get(b.s.w.docs, o.Key()), s.ticks[0].entropy);
      if c.Some? {
        var s' := b.s.(w := Stored(b.s.w, o.Key(), c.value));
        StoreMoves(p, s, s');
        if o.spec.ClientSpec? && c.value.wrote {
          StoreMoves(p, s', r.s);
          MovesTransitive(p, s, s', r.s, {}, {});
        }
      }
    }
  }

  ghost predicate Released(p: Params, w: World, o: Object) {
    o.uid in w.objects ==> !Carries(p, w.objects[o.uid])
  }

  lemma RetireMoves(p: Params, s: State, o: Object)
    requires WF(s.w)
    ensures Moves(p, s, Retire(p, s, o).s, {})
    ensures Retire(p, s, o).ok ==> Released(p, Retire(p, s, o).s.w, o)
  {
    WithoutMembers(o.finalizers, p.finalizer);
    if !p.prune {
      PatchMoves(p, s, o.uid, Without(o.finalizers, p.finalizer));
    } else {
      var d := Purge(p, s, o.Key());
      StoreMoves(p, s, d.s);
      PatchMoves(p, d.s, o.uid, Without(o.finalizers, p.finalizer));
      if d.ok {
        MovesTransitive(p, s, d.s, Retire(p, s, o).s, {}, {});
      }
    }
  }

  lemma SettleMoves(p: Params, s: State, i: Instance, organization: string, members: seq<Member>, o: Object)
    requires WF(s.w)
    ensures var r := Settle(p, s, i, organization, members, o);
            Moves(p, s, r.s, {}) && (r.ok && Retiring(i, o) ==> Released(p, r.s.w, o))
  {
    if Retiring(i, o) {
      RetireMoves(p, s, o);
    } else {
      PutMoves(p, s, organization, members, o);
    }
  }

  lemma SettleOneMoves(p: Params, s: State, i: Instance, organization: string, o: Object)
    requires WF(s.w)
    ensures var r := SettleOne(p, s, i, organization, o);
            Moves(p, s, r.s, {}) && (r.ok && Retiring(i, o) ==> Released(p, r.s.w, o))
  {
    if o.spec.OrganizationSpec? {
      GatherMoves(p, s, o.spec.bindings);
      var g := Gather(p, s, o.spec.bindings);
      if g.out.ok {
        SettleMoves(p, g.out.s, i, organization, g.members, o);
        MovesTransitive(p, s, g.out.s, SettleOne(p, s, i, organization, o).s, {}, {});
      }
    } else {
      SettleMoves(p, s, i, organization, [], o);
    }
  }

  /** The second loop marks nothing, and when it completes every object it retired is released. */
  lemma {:induction false} SettleAllMoves(p: Params, s: State, i: Instance, organization: string, items: seq<Object>)
    requires WF(s.w) && forall o | o in items :: o.uid < s.w.nextUid
    ensures var r := SettleAll(p, s, i, organization, items);
            Moves(p, s, r.s, {}) && (r.ok ==> forall o | o in items && Retiring(i, o) :: Released(p, r.s.w, o))
    decreases |items|
  {
    if items != [] {
      SettleOneMoves(p, s, i, organization, items[0]);
      var a := SettleOne(p, s, i, organization, items[0]);
      if a.ok {
        SettleAllMoves(p, a.s, i, organization, items[1..]);
        MovesTransitive(p, s, a.s, SettleAll(p, s, i, organization, items).s, {}, {});
      }
    }
  }

  /** No object the listing selects carries. */
  ghost predicate Free(p: Params, w: World, kind: Kind, selector: Option<LabelSelector>) {
    forall u | u in w.objects && Picked(w.objects[u], kind, selector) :: !Carries(p, w.objects[u])
  }

  lemma FreeStays(p: Params, w: World, w': World, kind: Kind, selector: Option<LabelSelector>)
    requires WF(w) && Free(p, w, kind, selector) && Grows(p, w, w', {})
    ensures Free(p, w', kind, selector)
  {
  }

  lemma AnchoredStays(p: Params, w: World, w': World, marked: set<nat>)
    requires WF(w) && Anchored(p, w) && Steady(w) && Grows(p, w, w', marked) && Stays(w, w')
    requires forall u | u in marked && u in w'.objects :: Reachable(p, w', w'.objects[u])
    ensures Anchored(p, w')
  {
  }

  /** What holds throughout a pass of a live instance. */
  ghost predicate Live(p: Params, s: State) {
    WF(s.w) && Steady(s.w) && SteadyTicks(s.ticks) && Anchored(p, s.w) && InstanceCarries(s.w)
  }

  /** The selector is one a pass lists the kind with. */
  ghost predicate Source(p: Params, w: World, kind: Kind, selector: Option<LabelSelector>) {
    if kind == UserKind || kind == OrganizationKind then selector == p.selector
    else exists v | v in w.objects :: Picked(w.objects[v], OrganizationKind, p.selector) && OwnSelector(w.objects[v]) == selector
  }

  lemma SourceStays(p: Params, w: World, w': World, kind: Kind, selector: Option<LabelSelector>)
    requires WF(w) && Source(p, w, kind, selector) && Follows(w, w') && OrganizationsStay(w, w')
    ensures Source(p, w', kind, selector)
  {
  }

  lemma LiveMoves(p: Params, s: State, r: State)
    requires Live(p, s) && Moves(p, s, r, {})
    ensures Live(p, r) && Follows(s.w, r.w) && OrganizationsStay(s.w, r.w)
  {
  }

  lemma MarkAllLive(p: Params, s: State, items: seq<Object>, kind: Kind, selector: Option<LabelSelector>)
    requires Live(p, s) && Source(p, s.w, kind, selector)
    requires forall o | o in items :: Known(s.w, o) && Picked(o, kind, selector)
    ensures var r := MarkAll(p, s, items).s; Live(p, r) && Follows(s.w, r.w) && OrganizationsStay(s.w, r.w)
  {
    MarkAllMoves(p, s, items);
    var w' := MarkAll(p, s, items).s.w;
    SourceStays(p, s.w, w', kind, selector);
    forall u | u in Uids(items) && u in w'.objects
      ensures Reachable(p, w', w'.objects[u])
    {
      var o :| o in items && o.uid == u;
      assert Known(w', o) by {
        assert Follows(s.w, w');
      }
      if !(kind == UserKind || kind == OrganizationKind) {
        var v :| v in w'.objects && Picked(w'.objects[v], OrganizationKind, p.selector) && OwnSelector(w'.objects[v]) == selector;
        assert Owner(p, w'.objects[v], w'.objects[u]);
      }
    }
    AnchoredStays(p, s.w, w', Uids(items));
  }

  lemma ProcessLive(p: Params, s: State, i: Instance, kind: Kind, selector: Option<LabelSelector>, organization: string, items: seq<Object>)
    requires Live(p, s) && Source(p, s.w, kind, selector) && !i.deleting
    requires forall o | o in items :: Known(s.w, o) && Picked(o, kind, selector)
    ensures LiveFrom(p, s, Process(p, s, i, organization, items).s)
  {
    MarkAllLive(p, s, items, kind, selector);
    var m := MarkAll(p, s, items);
    if m.ok {
      SettleAllMoves(p, m.s, i, organization, items);
      var r := SettleAll(p, m.s, i, organization, items);
      LiveMoves(p, m.s, r.s);
      LiveFromTransitive(p, s, m.s, r.s);
    }
  }

  /** From a state of the pass on. */
  ghost predicate LiveFrom(p: Params, s: State, r: State) {
    Live(p, r) && Follows(s.w, r.w) && OrganizationsStay(s.w, r.w)
  }

  lemma LiveFromTransitive(p: Params, s: State, t: State, r: State)
    requires Live(p, s) && LiveFrom(p, s, t) && LiveFrom(p, t, r)
    ensures LiveFrom(p, s, r)
  {
  }

  lemma BeginLive(p: Params, s: State, kind: Kind, selector: Option<LabelSelector>)
    requires Live(p, s) && Source(p, s.w, kind, selector)
    ensures LiveFrom(p, s, Begin(p, s).s) && Source(p, Begin(p, s).s.w, kind, selector)
    ensures forall o | o in Snapshot(p, s, kind, selector) :: Known(Begin(p, s).s.w, o) && Picked(o, kind, selector)
  {
    BeginMoves(p, s);
    LiveMoves(p, s, Begin(p, s).s);
    SourceStays(p, s.w, Begin(p, s).s.w, kind, selector);
    SnapshotIsKnown(p, s, kind, selector);
  }

  lemma ReconcileKindLive(p: Params, s: State, i: Instance, kind: Kind, selector: Option<LabelSelector>, organization: string)
    requires Live(p, s) && Source(p, s.w, kind, selector) && !i.deleting
    ensures var r := ReconcileKind(p, s, i, kind, selector, organization);
            LiveFrom(p, s, r.s) && (r.ok ==> LiveFrom(p, Begin(p, s).s, r.s))
  {
    BeginLive(p, s, kind, selector);
    var b, r := Begin(p, s), ReconcileKind(p, s, i, kind, selector, organization);
    if b.ok && Convertible(selector) && Convertible(p.selector) {
      ProcessLive(p, b.s, i, kind, selector, organization, Snapshot(p, s, kind, selector));
      LiveFromTransitive(p, s, b.s, r.s);
    }
  }

  lemma {:induction false} ReconcileOwnedLive(p: Params, s: State, i: Instance, orgs: seq<Object>)
    requires Live(p, s) && !i.deleting
    requires forall o | o in orgs :: o.spec.OrganizationSpec? && Source(p, s.w, FeatureKind, OwnSelector(o))
    ensures Live(p, ReconcileOwned(p, s, i, orgs).s)
    decreases |orgs|
  {
    if orgs != [] {
      var selector, id := orgs[0].spec.resourceSelector, orgs[0].Id();
      var f := ReconcileKind(p, s, i, FeatureKind, selector, id);
      assert Source(p, s.w, FeatureKind, OwnSelector(orgs[0]));
      ReconcileKindLive(p, s, i, FeatureKind, selector, id);
      forall o | o in orgs
        ensures Source(p, f.s.w, FeatureKind, OwnSelector(o))
      {
        SourceStays(p, s.w, f.s.w, FeatureKind, OwnSelector(o));
      }
      var c := ReconcileKind(p, f.s, i, ClientKind, selector, id);
      assert Source(p, f.s.w, ClientKind, selector) by {
        assert Source(p, f.s.w, FeatureKind, OwnSelector(orgs[0]));
      }
      ReconcileKindLive(p, f.s, i, ClientKind, selector, id);
      forall o | o in orgs
        ensures Source(p, c.s.w, FeatureKind, OwnSelector(o))
      {
        SourceStays(p, f.s.w, c.s.w, FeatureKind, OwnSelector(o));
      }
      ReconcileOwnedLive(p, c.s, i, orgs[1..]);
    }
  }

  lemma ReconcileAllLive(p: Params, s: State, i: Instance)
    requires Live(p, s) && !i.deleting
    ensures Live(p, ReconcileAll(p, s, i).s)
  {
    var s0 := s.(catalog := []);
    ReconcileKindLive(p, s0, i, UserKind, p.selector, "");
    var u := ReconcileKind(p, s0, i, UserKind, p.selector, "");
    ReconcileKindLive(p, u.s, i, OrganizationKind, p.selector, "");
    var o := ReconcileKind(p, u.s, i, OrganizationKind, p.selector, "");
    if u.ok && o.ok {
      BeginMoves(p, u.s);
      SnapshotIsKnown(p, u.s, OrganizationKind, p.selector);
      SnapshotKinds(p, u.s, p.selector);
      var orgs := Snapshot(p, u.s, OrganizationKind, p.selector);
      forall g | g in orgs
        ensures Source(p, o.s.w, FeatureKind, OwnSelector(g))
      {
        var w := Begin(p, u.s).s.w;
        assert w.objects[g.uid] == g;
        assert Source(p, w, FeatureKind, OwnSelector(g));
        SourceStays(p, w, o.s.w, FeatureKind, OwnSelector(g));
      }
      ReconcileOwnedLive(p, o.s, i, orgs);
    }
  }

  lemma SettleAllFrees(p: Params, s: State, i: Instance, kind: Kind, selector: Option<LabelSelector>, organization: string)
    requires WF(s.w) && i.deleting
    ensures var r := SettleAll(p, s, i, organization, List(s.w.objects, Order(s.w), kind, selector));
            Moves(p, s, r.s, {}) && (r.ok ==> Free(p, r.s.w, kind, selector))
  {
    var items := List(s.w.objects, Order(s.w), kind, selector);
    ListDistinct(s.w, kind, selector);
    SettleAllMoves(p, s, i, organization, items);
    var r := SettleAll(p, s, i, organization, items);
    if r.ok {
      ReleasedIsFree(p, s.w, r.s.w, kind, selector);
    }
  }

  lemma ProcessDeleting(p: Params, s: State, i: Instance, kind: Kind, selector: Option<LabelSelector>, organization: string)
    requires WF(s.w) && i.deleting
    ensures var r := ReconcileKind(p, s, i, kind, selector, organization);
            Moves(p, s, r.s, {}) && (r.ok ==> Free(p, r.s.w, kind, selector) && Moves(p, Begin(p, s).s, r.s, {}))
  {
    BeginMoves(p, s);
    var b := Begin(p, s);
    SettleAllFrees(p, b.s, i, kind, selector, organization);
    MovesTransitive(p, s, b.s, SettleAll(p, b.s, i, organization, Snapshot(p, s, kind, selector)).s, {}, {});
  }

  lemma ReleasedIsFree(p: Params, w: World, w': World, kind: Kind, selector: Option<LabelSelector>)
    requires WF(w) && Grows(p, w, w', {})
    requires forall o | o in List(w.objects, Order(w), kind, selector) :: Released(p, w', o)
    ensures Free(p, w', kind, selector)
  {
    forall u | u in w'.objects && u in w.objects && Picked(w'.objects[u], kind, selector)
      ensures !Carries(p, w'.objects[u])
    {
      assert Later(w.objects[u], w'.objects[u]);
      ListMembers(w, kind, selector);
      assert w.objects[u] in List(w.objects, Order(w), kind, selector);
      assert Released(p, w', w.objects[u]);
    }
  }

  lemma {:induction false} ReconcileOwnedDeleting(p: Params, s: State, i: Instance, orgs: seq<Object>)
    requires WF(s.w) && i.deleting && forall o | o in orgs :: o.spec.OrganizationSpec?
    ensures var r := ReconcileOwned(p, s, i, orgs);
            && Moves(p, s, r.s, {})
            && (r.ok ==> forall o | o in orgs :: Free(p, r.s.w, FeatureKind, OwnSelector(o)) && Free(p, r.s.w, ClientKind, OwnSelector(o)))
    decreases |orgs|
  {
    if orgs != [] {
      var selector, id := orgs[0].spec.resourceSelector, orgs[0].Id();
      ProcessDeleting(p, s, i, FeatureKind, selector, id);
      var f := ReconcileKind(p, s, i, FeatureKind, selector, id);
      ProcessDeleting(p, f.s, i, ClientKind, selector, id);
      var c := ReconcileKind(p, f.s, i, ClientKind, selector, id);
      ReconcileOwnedDeleting(p, c.s, i, orgs[1..]);
      var r := ReconcileOwned(p, c.s, i, orgs[1..]);
      MovesTransitive(p, s, f.s, c.s, {}, {});
      MovesTransitive(p, s, c.s, r.s, {}, {});
      if f.ok && c.ok && r.ok {
        FreeStays(p, f.s.w, c.s.w, FeatureKind, selector);
        FreeStays(p, c.s.w, r.s.w, FeatureKind, selector);
        FreeStays(p, c.s.w, r.s.w, ClientKind, selector);
      }
    }
  }

  ghost predicate NoneCarries(p: Params, w: World) {
    forall u | u in w.objects :: !Carries(p, w.objects[u])
  }

  /** A pass that sees the instance being deleted makes no object carry; if it completes, nothing it lists
      carries, with the organizations as listed. */
  lemma ReconcileAllFrees(p: Params, s: State, i: Instance)
    requires WF(s.w) && i.deleting
    ensures var r := ReconcileAll(p, s, i);
            var u := ReconcileKind(p, s.(catalog := []), i, UserKind, p.selector, "");
            && Moves(p, s, r.s, {}) && Moves(p, s, u.s, {}) && (r.ok ==> Moves(p, Begin(p, u.s).s, r.s, {}))
            && (r.ok ==>
                  && Free(p, r.s.w, UserKind, p.selector) && Free(p, r.s.w, OrganizationKind, p.selector)
                  && forall o | o in Snapshot(p, u.s, OrganizationKind, p.selector) ::
                       Free(p, r.s.w, FeatureKind, OwnSelector(o)) && Free(p, r.s.w, ClientKind, OwnSelector(o)))
  {
    var s0 := s.(catalog := []);
    ProcessDeleting(p, s0, i, UserKind, p.selector, "");
    var u := ReconcileKind(p, s0, i, UserKind, p.selector, "");
    ProcessDeleting(p, u.s, i, OrganizationKind, p.selector, "");
    var o := ReconcileKind(p, u.s, i, OrganizationKind, p.selector, "");
    SnapshotKinds(p, u.s, p.selector);
    var orgs := Snapshot(p, u.s, OrganizationKind, p.selector);
    ReconcileOwnedDeleting(p, o.s, i, orgs);
    var t := ReconcileOwned(p, o.s, i, orgs);
    MovesTransitive(p, s0, u.s, o.s, {}, {});
    MovesTransitive(p, s0, o.s, t.s, {}, {});
    if u.ok && o.ok && t.ok {
      BeginMoves(p, u.s);
      MovesTransitive(p, Begin(p, u.s).s, o.s, t.s, {}, {});
      FreeStays(p, u.s.w, o.s.w, UserKind, p.selector);
      FreeStays(p, o.s.w, t.s.w, UserKind, p.selector);
      FreeStays(p, o.s.w, t.s.w, OrganizationKind, p.selector);
    }
  }

  /** With every carrying object reachable, none carries after a complete pass. */
  lemma ReconcileAllDeleting(p: Params, s: State, i: Instance)
    requires WF(s.w) && i.deleting
    requires Steady(s.w) && SteadyTicks(s.ticks) && Anchored(p, s.w)
    ensures var r := ReconcileAll(p, s, i);
            && Moves(p, s, r.s, {}) && Anchored(p, r.s.w)
            && (r.ok ==> NoneCarries(p, r.s.w))
  {
    ReconcileAllFrees(p, s, i);
    var u := ReconcileKind(p, s.(catalog := []), i, UserKind, p.selector, "");
    AnchoredStays(p, s.w, u.s.w, {});
    BeginMoves(p, u.s);
    var b, r := Begin(p, u.s).s, ReconcileAll(p, s, i);
    AnchoredStays(p, u.s.w, b.w, {});
    AnchoredStays(p, s.w, r.s.w, {});
    if r.ok {
      AllFree(p, b.w, r.s.w, Snapshot(p, u.s, OrganizationKind, p.selector));
    }
  }

  lemma AllFree(p: Params, w: World, w': World, orgs: seq<Object>)
    requires WF(w) && Anchored(p, w) && Grows(p, w, w', {})
    requires orgs == List(w.objects, Order(w), OrganizationKind, p.selector)
    requires Free(p, w', UserKind, p.selector) && Free(p, w', OrganizationKind, p.selector)
    requires forall o | o in orgs :: Free(p, w', FeatureKind, OwnSelector(o)) && Free(p, w', ClientKind, OwnSelector(o))
    ensures NoneCarries(p, w')
  {
    forall u | u in w'.objects && u in w.objects && Carries(p, w.objects[u])
      ensures !Carries(p, w'.objects[u])
    {
      var o, o' := w.objects[u], w'.objects[u];
      assert Later(o, o') && Reachable(p, w, o);
      if o.Kind() == FeatureKind || o.Kind() == ClientKind {
        var v :| v in w.objects && Owner(p, w.objects[v], o);
        ListMembers(w, OrganizationKind, p.selector);
        assert w.objects[v] in orgs;
        assert Picked(o', o.Kind(), OwnSelector(w.objects[v]));
      } else {
        assert Picked(o', o.Kind(), p.selector);
      }
    }
  }

  lemma InstanceMoves(p: Params, s: State, b: State, r: State)
    requires Moves(p, s, b, {}) && r == b.(w := b.w.(instance := r.w.instance)) && (InstanceCarries(b.w) ==> InstanceCarries(r.w))
    ensures Moves(p, s, r, {})
  {
  }

  lemma PatchInstanceMoves(p: Params, s: State, finalizers: seq<string>)
    requires WF(s.w)
    ensures var r := PatchInstance(p, s, finalizers);
            && r.s.w.objects == Begin(p, s).s.w.objects && r.s.w.nextUid == Begin(p, s).s.w.nextUid
            && r.s.ticks == Begin(p, s).s.ticks
            && (FinalizerNames.FINALIZER in finalizers ==> Moves(p, s, r.s, {}) && (r.ok ==> InstanceCarries(r.s.w)))
            && (!r.ok ==> r.s.w == Begin(p, s).s.w)
  {
    BeginMoves(p, s);
    if FinalizerNames.FINALIZER in finalizers {
      InstanceMoves(p, s, Begin(p, s).s, PatchInstance(p, s, finalizers).s);
    }
  }

  ghost predicate Tidy(p: Params, w: World) {
    WF(w) && Steady(w) && Anchored(p, w) && Strandless(p, w)
  }

  lemma TidyStays(p: Params, s: State, r: State)
    requires Tidy(p, s.w) && SteadyTicks(s.ticks) && Moves(p, s, r, {})
    ensures Tidy(p, r.w) && SteadyTicks(r.ticks)
  {
  }

  lemma LivePassIsTidy(p: Params, b: State, i: Instance)
    requires Tidy(p, b.w) && SteadyTicks(b.ticks) && b.w.instance == Some(i) && !i.deleting
    ensures var m := PatchInstance(p, b, With(i.finalizers, FinalizerNames.FINALIZER));
            Tidy(p, m.s.w) && (m.ok ==> Tidy(p, ReconcileAll(p, m.s, i).s.w))
  {
    PatchInstanceMoves(p, b, With(i.finalizers, FinalizerNames.FINALIZER));
    var m := PatchInstance(p, b, With(i.finalizers, FinalizerNames.FINALIZER));
    TidyStays(p, b, m.s);
    if m.ok {
      ReconcileAllLive(p, m.s, i);
    }
  }

  lemma DeletingPassIsTidy(p: Params, b: State, i: Instance)
    requires Tidy(p, b.w) && SteadyTicks(b.ticks) && b.w.instance == Some(i) && i.deleting
    ensures var r := ReconcileAll(p, b, i);
            Tidy(p, r.s.w) && (r.ok ==> Tidy(p, PatchInstance(p, r.s, Without(i.finalizers, FinalizerNames.FINALIZER)).s.w))
  {
    ReconcileAllDeleting(p, b, i);
    var r := ReconcileAll(p, b, i);
    TidyStays(p, b, r.s);
    if r.ok {
      var finalizers := Without(i.finalizers, FinalizerNames.FINALIZER);
      BeginMoves(p, r.s);
      TidyStays(p, r.s, Begin(p, r.s).s);
      PatchInstanceMoves(p, r.s, finalizers);
      assert NoneCarries(p, PatchInstance(p, r.s, finalizers).s.w);
    }
  }

  lemma ReconcileIsTidy(p: Params, s: State)
    requires Tidy(p, s.w) && SteadyTicks(s.ticks)
    ensures Tidy(p, Reconcile(p, s).s.w)
  {
    BeginMoves(p, s);
    var b := Begin(p, s);
    TidyStays(p, s, b.s);
    if b.ok && b.s.w.instance.Some? && !p.suspend {
      var i := b.s.w.instance.value;
      if i.deleting {
        DeletingPassIsTidy(p, b.s, i);
      } else {
        LivePassIsTidy(p, b.s, i);
      }
    }
  }

  predicate SteadyRound(r: Round) {
    match r
    case Attempt(ticks) => SteadyTicks(ticks)
    case Interval(events) => SteadyEvents(events)
  }

  /** No stranded finalizers. Passes may crash at any call, resources other than organizations come and go. */
  lemma {:induction false} NoStrandedFinalizers(p: Params, w: World, rounds: seq<Round>)
    requires Tidy(p, w)
    requires forall r | r in rounds :: SteadyRound(r)
    ensures Tidy(p, Run(p, w, rounds))
    decreases |rounds|
  {
    if rounds != [] {
      assert SteadyRound(rounds[0]);
      match rounds[0]
      case Attempt(ticks) =>
        ReconcileIsTidy(p, State(w, ticks, []));
        NoStrandedFinalizers(p, Reconcile(p, State(w, ticks, [])).s.w, rounds[1..]);
      case Interval(events) =>
        EventsGrow(p, w, events);
        AnchoredStays(p, w, AppliedAll(p, w, events), {});
        NoStrandedFinalizers(p, AppliedAll(p, w, events), rounds[1..]);
    }
  }

  /** While the instance is being deleted no object starts to carry, and after one successful pass none does. */
  lemma DeletingPassReleasesAll(p: Params, s: State)
    requires Tidy(p, s.w) && SteadyTicks(s.ticks)
    requires var w := Begin(p, s).s.w; w.instance.Some? && w.instance.value.deleting && !p.suspend
    ensures var r := Reconcile(p, s); Adds(p, s.w, r.s.w, {}) && (r.ok ==> NoneCarries(p, r.s.w))
  {
    BeginMoves(p, s);
    var b := Begin(p, s);
    TidyStays(p, s, b.s);
    var i := b.s.w.instance.value;
    ReconcileAllDeleting(p, b.s, i);
    var r := ReconcileAll(p, b.s, i);
    MovesTransitive(p, s, b.s, r.s, {}, {});
    BeginMoves(p, r.s);
    MovesTransitive(p, s, r.s, Begin(p, r.s).s, {}, {});
    PatchInstanceMoves(p, r.s, Without(i.finalizers, FinalizerNames.FINALIZER));
  }
}
