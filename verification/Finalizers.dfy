/**
 The finalizers and objects a complete pass leaves, exactly: what it lists carries the instance's finalizer if it is
 live and does not if it is being released, what it does not list is as it was, and an object goes exactly if it is
 listed and nothing else keeps it.
 */
module Finalizers {
  import opened Wrappers
  import opened Documents
  import opened Selectors
  import opened Resources
  import opened Worlds
  import opened Pass
  import opened NoOrphans
  import opened NoStrands
  import opened Effects
  import opened Quiet
  import opened Target
  import opened Restart
  import FinalizerNames

  /** As a listed object is left: carrying if live, released if not. */
  ghost predicate Marked(p: Params, i: Instance, x: World, o: Object) {
    if Retiring(i, o) then o.uid in x.objects ==> !Carries(p, x.objects[o.uid])
    else o.uid in x.objects && Carries(p, x.objects[o.uid])
  }

  lemma MarkedStays(p: Params, i: Instance, b: World, c: World, o: Object)
    requires Marked(p, i, b, o) && Isolates(p, b, c)
    requires o.uid in b.objects ==> o.uid in c.objects && c.objects[o.uid] == b.objects[o.uid]
    ensures Marked(p, i, c, o)
  {
  }

  lemma SettleOneObjects(p: Params, s: State, i: Instance, organization: string, o: Object)
    requires QuietTicks(s.ticks) && !Retiring(i, o)
    ensures SettleOne(p, s, i, organization, o).s.w.objects == s.w.objects
  {
    if o.spec.OrganizationSpec? {
      GatherIsQuiet(p, s, o.spec.bindings);
      var g := Gather(p, s, o.spec.bindings);
      PutIsQuiet(p, g.out.s, organization, g.members, o);
    } else {
      PutIsQuiet(p, s, organization, [], o);
    }
  }

  /** The second loop changes no object but those it releases. */
  lemma {:induction false} SettleAllObjects(p: Params, s: State, i: Instance, organization: string, items: seq<Object>, kind: Kind, u: nat)
    requires QuietTicks(s.ticks) && Settleable(p, s.w, items, kind)
    requires u in s.w.objects && forall o | o in items && Retiring(i, o) :: o.uid != u
    ensures var r := SettleAll(p, s, i, organization, items).s; u in r.w.objects && r.w.objects[u] == s.w.objects[u]
    decreases |items|
  {
    if items != [] {
      var x, rest := items[0], items[1..];
      assert x in items && forall o | o in rest :: o in items;
      HeadAndRest(p, s.w, items, kind);
      SettleOneIsQuiet(p, s, i, organization, x);
      if !Retiring(i, x) {
        SettleOneObjects(p, s, i, organization, x);
      }
      var a := SettleOne(p, s, i, organization, x);
      if a.ok {
        SettleableLater(p, s.w, a.s.w, rest, kind);
        SettleAllObjects(p, a.s, i, organization, rest, kind, u);
      }
    }
  }

  lemma ProcessMarks(p: Params, s: State, i: Instance, organization: string, items: seq<Object>, kind: Kind, o: Object)
    requires QuietTicks(s.ticks) && WF(s.w) && Settleable(p, s.w, items, kind) && Process(p, s, i, organization, items).ok
    requires o in items && !Retiring(i, o)
    ensures Marked(p, i, Process(p, s, i, organization, items).s.w, o)
  {
    var m := MarkAll(p, s, items);
    MarkAllEvolves(p, s, items);
    MarkAllIsQuiet(p, s, items);
    SettleableLater(p, s.w, m.s.w, items, kind);
    assert Holds(p, m.s.w, o);
    SettleAllObjects(p, m.s, i, organization, items, kind, o.uid);
  }

  /** Every object of the kind the selector picks is marked. */
  ghost predicate KindMarked(p: Params, i: Instance, w: World, x: World, kind: Kind, selector: Option<LabelSelector>) {
    forall u | u in w.objects && Picked(w.objects[u], kind, selector) :: Marked(p, i, x, w.objects[u])
  }

  lemma KindMarks(p: Params, s: State, i: Instance, kind: Kind, selector: Option<LabelSelector>, organization: string)
    requires QuietTicks(s.ticks) && WF(s.w) && ReconcileKind(p, s, i, kind, selector, organization).ok
    ensures KindMarked(p, i, s.w, ReconcileKind(p, s, i, kind, selector, organization).s.w, kind, selector)
  {
    var items, r := List(s.w.objects, Order(s.w), kind, selector), ReconcileKind(p, s, i, kind, selector, organization);
    ReconcileKindIsQuiet(p, s, i, kind, selector, organization);
    BeginIsQuiet(p, s);
    SnapshotIsSettleable(p, s.w, kind, selector);
    ListMembers(s.w, kind, selector);
    forall u | u in s.w.objects && Picked(s.w.objects[u], kind, selector)
      ensures Marked(p, i, r.s.w, s.w.objects[u])
    {
      var o := s.w.objects[u];
      assert o in items;
      if Retiring(i, o) {
        assert Released(p, r.s.w, o);
      } else {
        ProcessMarks(p, Begin(p, s).s, i, organization, items, kind, o);
      }
    }
  }

  ghost predicate NestedMarked(p: Params, i: Instance, w: World, x: World, org: Object) {
    KindMarked(p, i, w, x, FeatureKind, OwnSelector(org)) && KindMarked(p, i, w, x, ClientKind, OwnSelector(org))
  }

  lemma OrganizationMarks(p: Params, s: State, i: Instance, org: Object)
    requires QuietTicks(s.ticks) && WF(s.w) && org.spec.OrganizationSpec? && ReconcileOrganization(p, s, i, org).ok
    ensures NestedMarked(p, i, s.w, ReconcileOrganization(p, s, i, org).s.w, org)
  {
    var selector, id := org.spec.resourceSelector, org.Id();
    var f, c := ReconcileKind(p, s, i, FeatureKind, selector, id), ReconcileOrganization(p, s, i, org);
    KindMarks(p, s, i, FeatureKind, selector, id);
    KindStep(p, s, i, FeatureKind, selector, id);
    KindMarks(p, f.s, i, ClientKind, selector, id);
    KindStep(p, f.s, i, ClientKind, selector, id);
    FeaturesStayMarked(p, s.w, f.s.w, c.s.w, i, selector, id);
    ClientsAreMarked(p, s.w, f.s.w, c.s.w, i, selector, id);
  }

  lemma FeaturesStayMarked(p: Params, w: World, f: World, c: World, i: Instance, selector: Option<LabelSelector>, id: string)
    requires WF(w) && KindMarked(p, i, w, f, FeatureKind, selector) && Isolates(p, w, f) && Isolates(p, f, c) && KindSettled(p, f, c, i, ClientKind, selector, id, true)
    ensures KindMarked(p, i, w, c, FeatureKind, selector)
  {
    forall u | u in w.objects && Picked(w.objects[u], FeatureKind, selector)
      ensures Marked(p, i, c, w.objects[u])
    {
      OtherKindStays(p, w, f, c, i, selector, id, u);
      MarkedStays(p, i, f, c, w.objects[u]);
    }
  }

  lemma OtherKindStays(p: Params, w: World, f: World, c: World, i: Instance, selector: Option<LabelSelector>, id: string, u: nat)
    requires Isolates(p, w, f) && KindSettled(p, f, c, i, ClientKind, selector, id, true) && u in w.objects && w.objects[u].Kind() == FeatureKind
    ensures u in f.objects ==> u in c.objects && c.objects[u] == f.objects[u]
  {
    assert u in f.objects ==> Same(p, w.objects[u], f.objects[u]);
  }

  lemma ClientsAreMarked(p: Params, w: World, f: World, c: World, i: Instance, selector: Option<LabelSelector>, id: string)
    requires WF(w) && KindMarked(p, i, f, c, ClientKind, selector) && KindSettled(p, w, f, i, FeatureKind, selector, id, true)
    ensures KindMarked(p, i, w, c, ClientKind, selector)
  {
    forall u | u in w.objects && Picked(w.objects[u], ClientKind, selector)
      ensures Marked(p, i, c, w.objects[u])
    {
      assert u in f.objects && f.objects[u] == w.objects[u];
    }
  }

  lemma MarkedLater(p: Params, i: Instance, x: World, o: Object, o': Object)
    requires Marked(p, i, x, o') && o' == o.(finalizers := o'.finalizers)
    ensures Marked(p, i, x, o)
  {
  }

  ghost predicate AllOwnedMarked(p: Params, i: Instance, w: World, x: World, orgs: seq<Object>) {
    forall u | u in w.objects && Nested(w.objects[u]) && FirstOwner(orgs, w.objects[u]).Some? :: Marked(p, i, x, w.objects[u])
  }

  /** One organization and then the rest. */
  lemma OwnedMarkedThen(p: Params, i: Instance, c: World, x: World, orgs: seq<Object>, o: Object, o': Object)
    requires orgs != [] && Nested(o) && FirstOwner(orgs, o).Some? && Isolates(p, c, x)
    requires Selects(OwnSelector(orgs[0]), o.labels) ==> Marked(p, i, c, o)
    requires o.uid in c.objects && c.objects[o.uid] == o' && o' == o.(finalizers := o'.finalizers)
    requires if FirstOwner(orgs[1..], o').Some? then Marked(p, i, x, o') else o.uid in x.objects && x.objects[o.uid] == o'
    ensures Marked(p, i, x, o)
  {
    FirstOwnerSame(orgs[1..], o, o');
    if FirstOwner(orgs[1..], o').Some? {
      MarkedLater(p, i, x, o, o');
    } else {
      MarkedStays(p, i, c, x, o);
    }
  }

  lemma UnownedStays(p: Params, i: Instance, c: World, x: World, orgs: seq<Object>, u: nat)
    requires AllNestedSettled(p, c, x, i, orgs, true) && u in c.objects && c.objects[u].uid == u && Nested(c.objects[u]) && FirstOwner(orgs, c.objects[u]).None?
    ensures u in x.objects && x.objects[u] == c.objects[u]
  {
    assert OwnedSettled(p, c, x, i, orgs, c.objects[u], true);
  }

  lemma OwnedMarked(p: Params, i: Instance, w: World, c: World, x: World, orgs: seq<Object>, o: Object)
    requires WF(w) && Isolates(p, w, c) && Isolates(p, c, x) && orgs != []
    requires o.uid in w.objects && w.objects[o.uid] == o && Nested(o) && FirstOwner(orgs, o).Some?
    requires NestedMarked(p, i, w, c, orgs[0]) && AllOwnedMarked(p, i, c, x, orgs[1..])
    requires o.uid in c.objects && FirstOwner(orgs[1..], c.objects[o.uid]).None? ==> o.uid in x.objects && x.objects[o.uid] == c.objects[o.uid]
    requires o.uid !in c.objects ==> Retiring(i, o)
    ensures Marked(p, i, x, o)
  {
    if o.uid in c.objects {
      var o' := c.objects[o.uid];
      assert Same(p, o, o') && Picked(o, o.Kind(), OwnSelector(orgs[0])) == Selects(OwnSelector(orgs[0]), o.labels);
      OwnedMarkedThen(p, i, c, x, orgs, o, o');
    }
  }

  lemma {:induction false} FirstOwnerSame(orgs: seq<Object>, o: Object, o': Object)
    requires o.labels == o'.labels
    ensures FirstOwner(orgs, o) == FirstOwner(orgs, o')
  {
    if orgs != [] {
      FirstOwnerSame(orgs[1..], o, o');
    }
  }

  lemma {:induction false} OwnedMarks(p: Params, s: State, i: Instance, orgs: seq<Object>)
    requires QuietTicks(s.ticks) && WF(s.w) && (forall o | o in orgs :: o.spec.OrganizationSpec?) && ReconcileOwned(p, s, i, orgs).ok
    ensures AllOwnedMarked(p, i, s.w, ReconcileOwned(p, s, i, orgs).s.w, orgs)
    decreases |orgs|
  {
    if orgs != [] {
      var c, r := ReconcileOrganization(p, s, i, orgs[0]), ReconcileOwned(p, s, i, orgs);
      OrganizationMarks(p, s, i, orgs[0]);
      OrganizationStep(p, s, i, orgs[0]);
      OwnedMarks(p, c.s, i, orgs[1..]);
      ReconcileOwnedIsQuiet(p, c.s, i, orgs[1..]);
      forall u | u in s.w.objects && Nested(s.w.objects[u]) && FirstOwner(orgs, s.w.objects[u]).Some?
        ensures Marked(p, i, r.s.w, s.w.objects[u])
      {
        var o := s.w.objects[u];
        assert StepSettled(p, s.w, c.s.w, i, OwnSelector(orgs[0]), orgs[0].Id(), o, true);
        if u in c.s.w.objects && FirstOwner(orgs[1..], c.s.w.objects[u]).None? {
          assert Same(p, o, c.s.w.objects[u]);
          UnownedStays(p, i, c.s.w, r.s.w, orgs[1..], u);
        }
        OwnedMarked(p, i, s.w, c.s.w, r.s.w, orgs, o);
      }
    }
  }

  /** No object of another kind is touched. */
  ghost predicate KindOnly(w: World, w': World, kind: Kind) {
    forall u | u in w.objects && w.objects[u].Kind() != kind :: u in w'.objects && w'.objects[u] == w.objects[u]
  }

  ghost predicate NestedOnly(w: World, w': World) {
    forall u | u in w.objects && !Nested(w.objects[u]) :: u in w'.objects && w'.objects[u] == w.objects[u]
  }

  /** The three phases of a completed pass, as far as finalizers go. */
  ghost predicate PhasesMark(p: Params, i: Instance, w: World, a: World, b: World, c: World) {
    && WF(w) && Isolates(p, w, a) && Isolates(p, a, b) && Isolates(p, b, c)
    && KindOnly(w, a, UserKind) && KindMarked(p, i, w, a, UserKind, p.selector)
    && KindOnly(a, b, OrganizationKind) && KindMarked(p, i, a, b, OrganizationKind, p.selector)
    && NestedOnly(b, c) && AllOwnedMarked(p, i, b, c, ListedOrganizations(p, w))
  }

  lemma UserMarked(p: Params, i: Instance, w: World, a: World, b: World, c: World, o: Object)
    requires Isolates(p, w, a) && Isolates(p, a, b) && Isolates(p, b, c) && KindOnly(a, b, OrganizationKind) && NestedOnly(b, c)
    requires o.uid in w.objects && w.objects[o.uid] == o && o.Kind() == UserKind && Marked(p, i, a, o)
    ensures Marked(p, i, c, o)
  {
    if o.uid in a.objects {
      assert Same(p, o, a.objects[o.uid]) && a.objects[o.uid].Kind() == UserKind;
    }
    MarkedStays(p, i, a, b, o);
    MarkedStays(p, i, b, c, o);
  }

  lemma OrganizationMarked(p: Params, i: Instance, w: World, a: World, b: World, c: World, o: Object)
    requires KindOnly(w, a, UserKind) && KindMarked(p, i, a, b, OrganizationKind, p.selector) && NestedOnly(b, c) && Isolates(p, a, b) && Isolates(p, b, c)
    requires o.uid in w.objects && w.objects[o.uid] == o && Picked(o, OrganizationKind, p.selector)
    ensures Marked(p, i, c, o)
  {
    assert Marked(p, i, b, a.objects[o.uid]);
    if o.uid in b.objects {
      assert Same(p, o, b.objects[o.uid]) && !Nested(b.objects[o.uid]);
    }
    MarkedStays(p, i, b, c, o);
  }

  lemma NestedIsMarked(p: Params, i: Instance, w: World, a: World, b: World, c: World, orgs: seq<Object>, o: Object)
    requires KindOnly(w, a, UserKind) && KindOnly(a, b, OrganizationKind) && AllOwnedMarked(p, i, b, c, orgs)
    requires o.uid in w.objects && w.objects[o.uid] == o && Nested(o) && FirstOwner(orgs, o).Some?
    ensures Marked(p, i, c, o)
  {
    assert b.objects[o.uid] == a.objects[o.uid] == o;
  }

  lemma ReconcileAllMarks(p: Params, s: State, i: Instance)
    requires QuietTicks(s.ticks) && WF(s.w) && ReconcileAll(p, s, i).ok
    ensures forall u | u in s.w.objects && Listed(p, s.w, s.w.objects[u]) :: Marked(p, i, ReconcileAll(p, s, i).s.w, s.w.objects[u])
  {
    var s0 := s.(catalog := []);
    FirstPhases(p, s0, i);
    KindMarks(p, s0, i, UserKind, p.selector, "");
    var u := ReconcileKind(p, s0, i, UserKind, p.selector, "");
    var o := ReconcileKind(p, u.s, i, OrganizationKind, p.selector, "");
    KindMarks(p, u.s, i, OrganizationKind, p.selector, "");
    BeginIsQuiet(p, u.s);
    SnapshotKinds(p, u.s, p.selector);
    var orgs := ListedOrganizations(p, u.s.w);
    OrganizationsListed(p, s.w, u.s.w, i, true);
    LastPhase(p, o.s, i, orgs, true);
    OwnedMarks(p, o.s, i, orgs);
    var r := ReconcileAll(p, s, i).s.w;
    assert PhasesMark(p, i, s.w, u.s.w, o.s.w, r);
    forall v | v in s.w.objects && Listed(p, s.w, s.w.objects[v])
      ensures Marked(p, i, r, s.w.objects[v])
    {
      ListedIsMarked(p, i, s.w, u.s.w, o.s.w, r, s.w.objects[v]);
    }
  }

  lemma ListedIsMarked(p: Params, i: Instance, w: World, a: World, b: World, c: World, o: Object)
    requires PhasesMark(p, i, w, a, b, c) && o.uid in w.objects && w.objects[o.uid] == o && Listed(p, w, o)
    ensures Marked(p, i, c, o)
  {
    if Nested(o) {
      NestedIsMarked(p, i, w, a, b, c, ListedOrganizations(p, w), o);
    } else if o.Kind() == UserKind {
      assert Picked(o, UserKind, p.selector) && Marked(p, i, a, o);
      UserMarked(p, i, w, a, b, c, o);
    } else {
      OrganizationMarked(p, i, w, a, b, c, o);
    }
  }

  /** An object that only this instance keeps goes when it is released, and no other goes. */
  lemma GoesExactly(p: Params, i: Instance, w: World, x: World, o: Object)
    requires WF(x) && Isolates(p, w, x) && o.uid in w.objects && w.objects[o.uid] == o && Marked(p, i, x, o)
    ensures o.uid !in x.objects <==> Dangling(p, o)
  {
    if o.uid in x.objects && Dangling(p, o) {
      var o' := x.objects[o.uid];
      assert Same(p, o, o') && Retiring(i, o) && !Carries(p, o');
      WithoutMembers(o'.finalizers, p.finalizer);
    }
  }

  lemma PassMarks(p: Params, w: World, ticks: seq<Tick>)
    requires QuietTicks(ticks) && WF(w) && w.instance.Some? && !p.suspend && Reconcile(p, State(w, ticks, [])).ok
    ensures var x := Reconcile(p, State(w, ticks, [])).s.w;
            forall u | u in w.objects && Listed(p, w, w.objects[u]) :: Marked(p, w.instance.value, x, w.objects[u])
  {
    var s := State(w, ticks, []);
    PassUnfolds(p, s);
    var m, i, x := Opening(p, s).s, w.instance.value, Reconcile(p, s).s.w;
    ReconcileAllMarks(p, m, i);
    forall u | u in w.objects && Listed(p, w, w.objects[u])
      ensures Marked(p, i, x, w.objects[u])
    {
      assert Listed(p, m.w, m.w.objects[u]);
    }
  }

  /** After a complete undisturbed pass: an object is gone exactly if it was listed, being deleted, and nothing but
      this instance's finalizer kept it; and what is there carries exactly if it was listed and is live, or was
      not listed and carried before. */
  lemma FinalizersAfterPass(p: Params, w: World, ticks: seq<Tick>)
    requires QuietTicks(ticks) && WF(w) && w.instance.Some? && !p.suspend && Reconcile(p, State(w, ticks, [])).ok
    ensures var x := Reconcile(p, State(w, ticks, [])).s.w;
            forall u | u in w.objects ::
              var o := w.objects[u];
              && (u in x.objects <==> !(Listed(p, w, o) && Dangling(p, o)))
              && (u in x.objects ==>
                    (Carries(p, x.objects[u]) <==> if Listed(p, w, o) then !Retiring(w.instance.value, o) else Carries(p, o)))
  {
    var x := Reconcile(p, State(w, ticks, [])).s.w;
    QuietPass(p, w, ticks);
    PassMarks(p, w, ticks);
    forall u | u in w.objects
      ensures var o := w.objects[u];
              && (u in x.objects <==> !(Listed(p, w, o) && Dangling(p, o)))
              && (u in x.objects ==>
                    (Carries(p, x.objects[u]) <==> if Listed(p, w, o) then !Retiring(w.instance.value, o) else Carries(p, o)))
    {
      if Listed(p, w, w.objects[u]) {
        GoesExactly(p, w.instance.value, w, x, w.objects[u]);
      } else {
        assert Progress(p, w, x, w.instance.value, w.objects[u], true);
      }
    }
  }

  lemma PatchedInstance(p: Params, s: State, finalizers: seq<string>)
    requires QuietTicks(s.ticks) && s.w.instance.Some? && PatchInstance(p, s, finalizers).ok
    ensures var i := s.w.instance.value;
            PatchInstance(p, s, finalizers).s.w.instance == if i.deleting && finalizers == [] then None else Some(i.(finalizers := finalizers))
  {
    BeginIsQuiet(p, s);
  }

  lemma OpenedInstance(p: Params, s: State)
    requires QuietTicks(s.ticks) && s.w.instance.Some? && Opening(p, s).ok
    ensures var i := s.w.instance.value;
            Opening(p, s).s.w.instance == Some(if i.deleting then i else i.(finalizers := With(i.finalizers, FinalizerNames.FINALIZER)))
  {
    BeginIsQuiet(p, s);
    if !s.w.instance.value.deleting {
      PatchedInstance(p, Begin(p, s).s, With(s.w.instance.value.finalizers, FinalizerNames.FINALIZER));
    }
  }

  /** And the instance itself has its finalizer on, or off and is gone if it had no other. */
  lemma InstanceAfterPass(p: Params, w: World, ticks: seq<Tick>)
    requires QuietTicks(ticks) && WF(w) && w.instance.Some? && !p.suspend && Reconcile(p, State(w, ticks, [])).ok
    ensures var i, x := w.instance.value, Reconcile(p, State(w, ticks, [])).s.w;
            var rest := Without(i.finalizers, FinalizerNames.FINALIZER);
            x.instance == if !i.deleting then Some(i.(finalizers := With(i.finalizers, FinalizerNames.FINALIZER)))
                          else if rest == [] then None else Some(i.(finalizers := rest))
  {
    var s, i := State(w, ticks, []), w.instance.value;
    PassUnfolds(p, s);
    BeginIsQuiet(p, s);
    OpenedInstance(p, s);
    var m := Opening(p, s).s;
    var t := ReconcileAll(p, m, i);
    ReconcileAllProgress(p, m, i);
    PassCloses(p, s, m, t);
    if i.deleting {
      PatchedInstance(p, t.s, Without(i.finalizers, FinalizerNames.FINALIZER));
    }
  }

  lemma PassCloses(p: Params, s: State, m: State, t: Outcome)
    requires Begin(p, s).ok && Begin(p, s).s.w == s.w && s.w.instance.Some? && !p.suspend && Opening(p, s) == Outcome(m, true)
    requires t == ReconcileAll(p, m, s.w.instance.value)
    ensures var i := s.w.instance.value;
            Reconcile(p, s) == if !t.ok || !i.deleting then t else PatchInstance(p, t.s, Without(i.finalizers, FinalizerNames.FINALIZER))
  {
  }

  /** What others did before the call at hand. */
  function Before(p: Params, s: State): map<nat, Object> {
    if s.ticks == [] then s.w.objects else AppliedAll(p, s.w, s.ticks[0].events).objects
  }

  /** On every schedule: putting the finalizer on a live listed object needs a call that does not fail and the object
      still there, not deleted by now unless it has all these finalizers; then it has those of the listing and this
      one, last if it was not among them, and nothing else changes. */
  lemma MarksExactly(p: Params, s: State, o: Object)
    requires !o.deleting
    ensures var v, r := Before(p, s), AddFinalizer(p, s, o);
            && (r.ok <==> && s.ticks != [] && !s.ticks[0].fault && o.uid in v
                          && (v[o.uid].deleting ==> p.finalizer in v[o.uid].finalizers && forall f | f in o.finalizers :: f in v[o.uid].finalizers))
            && (!r.ok ==> r.s.w.objects == v)
            && (r.ok ==> var marked := if p.finalizer in o.finalizers then o.finalizers else o.finalizers + [p.finalizer];
                         r.s.w.objects == v[o.uid := v[o.uid].(finalizers := marked)])
  {
  }

  /** Taking it off needs the same; the object keeps the other finalizers of the listing, and goes if it is being
      deleted and there are none. */
  lemma ReleasesExactly(p: Params, s: State, o: Object)
    ensures var v, r := Before(p, s), Release(p, s, o);
            && (r.ok <==> && s.ticks != [] && !s.ticks[0].fault && o.uid in v
                          && (v[o.uid].deleting ==> forall f | f in o.finalizers && f != p.finalizer :: f in v[o.uid].finalizers))
            && (!r.ok ==> r.s.w.objects == v)
            && (r.ok ==>
                  && r.s.w.objects - {o.uid} == v - {o.uid}
                  && (o.uid in r.s.w.objects <==> !v[o.uid].deleting || exists f | f in o.finalizers :: f != p.finalizer)
                  && (o.uid in r.s.w.objects ==> r.s.w.objects[o.uid] == v[o.uid].(finalizers := Without(o.finalizers, p.finalizer))))
  {
    WithoutMembers(o.finalizers, p.finalizer);
    var v, rest := Before(p, s), Without(o.finalizers, p.finalizer);
    if rest != [] {
      assert rest[0] in rest;
    }
  }

  /** The instance's own finalizer: the call needs the instance still there, and whoever deleted it meanwhile
      leaves room for no new finalizer. */
  lemma InstancePatchesExactly(p: Params, s: State, finalizers: seq<string>)
    ensures var v, r := if s.ticks == [] then s.w.instance else AppliedAll(p, s.w, s.ticks[0].events).instance, PatchInstance(p, s, finalizers);
            && (r.ok <==> && s.ticks != [] && !s.ticks[0].fault && v.Some?
                          && (v.value.deleting ==> forall f | f in finalizers :: f in v.value.finalizers))
            && (!r.ok ==> r.s.w.instance == v)
            && (r.ok ==> (r.s.w.instance.None? <==> v.value.deleting && finalizers == []))
            && (r.ok && r.s.w.instance.Some? ==> r.s.w.instance.value == v.value.(finalizers := finalizers))
  {
  }
}
