/**
 When a pass completes. With nobody else acting and no call failing, a pass that is given enough calls completes
 exactly if everything it lists can be settled; and how many calls are enough can be read off the cluster.
 */
module Completion {
  import opened Wrappers
  import opened Documents
  import opened Selectors
  import opened Resources
  import opened FeatureTranslation
  import opened Worlds
  import opened Pass
  import opened NoOrphans
  import opened NoStrands
  import opened Effects
  import opened Demands
  import opened Quiet
  import opened Target
  import opened Restart
  import FinalizerNames

  /** Nobody acts and no call fails. */
  predicate Calm(ticks: seq<Tick>) {
    forall t | t in ticks :: t.events == [] && !t.fault
  }

  /** Nothing about the object can make settling it fail. */
  predicate Fit(secrets: Secrets, i: Instance, o: Object) {
    && (o.spec.OrganizationSpec? ==> forall b | b in o.spec.bindings :: Convertible(b.selector))
    && (o.spec.FeatureSpec? ==> VersionsPaired(o))
    && (!Retiring(i, o) ==> Mergeable(secrets, o))
  }

  /** From s to r in at most so many calls. */
  ghost predicate Within(s: State, r: State, calls: nat) {
    Calm(r.ticks) && |s.ticks| <= |r.ticks| + calls
  }

  /** Completing shows the condition; and where no call fails and there are enough, the condition is all it takes. */
  ghost predicate Decides(s: State, r: Outcome, calls: nat, condition: bool) {
    && QuietTicks(r.s.ticks)
    && (r.ok ==> condition)
    && (Calm(s.ticks) && |s.ticks| >= calls ==> (condition ==> r.ok) && Within(s, r.s, calls))
  }

  /** One part and then, if it completed, the next. */
  lemma DecidesThen(s: State, a: Outcome, r: Outcome, n: nat, m: nat, first: bool, second: bool)
    requires Decides(s, a, n, first) && (if a.ok then Decides(a.s, r, m, second) else r == a)
    ensures Decides(s, r, n + m, first && second)
  {
  }

  ghost predicate ItemsFit(secrets: Secrets, i: Instance, items: seq<Object>) {
    forall o | o in items :: Fit(secrets, i, o)
  }

  lemma BeginDecides(p: Params, s: State)
    requires QuietTicks(s.ticks)
    ensures var b := Begin(p, s); Decides(s, b, 1, true) && b.s.w == s.w && b.s.catalog == s.catalog
  {
    BeginIsQuiet(p, s);
    assert s.ticks != [] ==> s.ticks[0] in s.ticks;
  }

  /** Both patches a pass makes are accepted. */
  lemma PatchDecides(p: Params, s: State, o: Object, finalizers: seq<string>)
    requires QuietTicks(s.ticks) && o.uid in s.w.objects && Same(p, o, s.w.objects[o.uid])
    requires finalizers == Without(o.finalizers, p.finalizer) || (!o.deleting && finalizers == With(o.finalizers, p.finalizer))
    ensures Decides(s, Patch(p, s, o.uid, finalizers), 1, true)
  {
    BeginDecides(p, s);
    WithoutMembers(o.finalizers, p.finalizer);
    WithoutMembers(s.w.objects[o.uid].finalizers, p.finalizer);
  }

  lemma {:induction false} MarkAllDecides(p: Params, s: State, items: seq<Object>)
    requires QuietTicks(s.ticks) && Current(p, s.w, items) && forall o | o in items :: o.uid in s.w.objects
    ensures Decides(s, MarkAll(p, s, items), |items|, true)
    decreases |items|
  {
    if items != [] {
      var o, rest := items[0], items[1..];
      assert o in items;
      assert Current(p, s.w, [o]);
      if !o.deleting {
        PatchDecides(p, s, o, With(o.finalizers, p.finalizer));
        PatchIsQuiet(p, s, o, With(o.finalizers, p.finalizer));
        WithHas(o.finalizers, p.finalizer);
      }
      var a := AddFinalizer(p, s, o);
      var s' := if o.deleting then a.s else a.s.(catalog := Catalogued(a.s.catalog, o));
      if a.ok {
        CurrentLater(p, s.w, s'.w, items);
        assert Current(p, s'.w, rest);
        MarkAllDecides(p, s', rest);
      }
    }
  }

  lemma WithHas(finalizers: seq<string>, f: string)
    ensures f in With(finalizers, f)
  {
  }

  lemma {:induction false} GatherDecides(p: Params, s: State, bindings: seq<Binding>)
    requires QuietTicks(s.ticks)
    ensures Decides(s, Gather(p, s, bindings).out, |bindings|, forall b | b in bindings :: Convertible(b.selector))
    decreases |bindings|
  {
    if bindings != [] {
      assert bindings == [bindings[0]] + bindings[1..];
      BeginDecides(p, s);
      GatherDecides(p, Begin(p, s).s, bindings[1..]);
    }
  }

  lemma PutDecides(p: Params, s: State, organization: string, members: seq<Member>, o: Object)
    requires QuietTicks(s.ticks)
    ensures Decides(s, Put(p, s, organization, members, o), 2, Mergeable(s.w.secrets, o))
  {
    BeginDecides(p, s);
    PutIsQuiet(p, s, organization, members, o);
    var b := Begin(p, s);
    if b.ok {
      var e, d := s.ticks[0].entropy, Get(s.w.docs, o.Key());
      ComputedErases(p, s.w.secrets, organization, members, o, d, e);
      var r := Computed(p, s.w.secrets, organization, members, o, d, e);
      if r.Some? {
        BeginDecides(p, b.s.(w := Stored(b.s.w, o.Key(), r.value)));
      }
    }
  }

  lemma RetireDecides(p: Params, s: State, o: Object)
    requires QuietTicks(s.ticks) && o.uid in s.w.objects && Same(p, o, s.w.objects[o.uid])
    ensures Decides(s, Retire(p, s, o), 2, true)
  {
    BeginDecides(p, s);
    var d := if p.prune then Purge(p, s, o.Key()) else Outcome(s, true);
    if d.ok {
      PatchDecides(p, d.s, o, Without(o.finalizers, p.finalizer));
    }
  }

  function SettleCalls(o: Object): nat {
    2 + if o.spec.OrganizationSpec? then |o.spec.bindings| else 0
  }

  lemma SettleOneDecides(p: Params, s: State, i: Instance, organization: string, o: Object)
    requires QuietTicks(s.ticks) && o.uid in s.w.objects && Same(p, o, s.w.objects[o.uid])
    ensures Decides(s, SettleOne(p, s, i, organization, o), SettleCalls(o), Fit(s.w.secrets, i, o))
  {
    var g := if o.spec.OrganizationSpec? then Gather(p, s, o.spec.bindings) else Gathered(Outcome(s, true), []);
    if o.spec.OrganizationSpec? {
      GatherDecides(p, s, o.spec.bindings);
      GatherIsQuiet(p, s, o.spec.bindings);
    }
    if g.out.ok && Retiring(i, o) {
      RetireDecides(p, g.out.s, o);
    } else if g.out.ok {
      PutDecides(p, g.out.s, organization, g.members, o);
    }
  }

  function Calls(items: seq<Object>): nat {
    if items == [] then 0 else 1 + SettleCalls(items[0]) + Calls(items[1..])
  }

  function SettleAllCalls(items: seq<Object>): nat {
    if items == [] then 0 else SettleCalls(items[0]) + SettleAllCalls(items[1..])
  }

  lemma {:induction false} CallsAdd(items: seq<Object>)
    ensures Calls(items) == |items| + SettleAllCalls(items)
  {
    if items != [] {
      CallsAdd(items[1..]);
    }
  }

  lemma RestPresent(w: World, a: World, x: Object, rest: seq<Object>)
    requires Untouched(w, a, {x.uid}) && forall o | o in rest :: o.uid in w.objects && o.uid != x.uid
    ensures forall o | o in rest :: o.uid in a.objects
  {
  }

  lemma {:induction false} SettleAllDecides(p: Params, s: State, i: Instance, organization: string, items: seq<Object>, kind: Kind)
    requires QuietTicks(s.ticks) && Settleable(p, s.w, items, kind) && forall o | o in items :: o.uid in s.w.objects
    ensures Decides(s, SettleAll(p, s, i, organization, items), SettleAllCalls(items), ItemsFit(s.w.secrets, i, items))
    decreases |items|
  {
    if items != [] {
      var x, rest := items[0], items[1..];
      HeadAndRest(p, s.w, items, kind);
      assert x in items;
      SettleOneDecides(p, s, i, organization, x);
      SettleOneIsQuiet(p, s, i, organization, x);
      var a, r := SettleOne(p, s, i, organization, x), SettleAll(p, s, i, organization, items);
      if a.ok {
        SettleableLater(p, s.w, a.s.w, rest, kind);
        RestPresent(s.w, a.s.w, x, rest);
        SettleAllDecides(p, a.s, i, organization, rest, kind);
      }
      DecidesThen(s, a, r, SettleCalls(x), SettleAllCalls(rest), Fit(s.w.secrets, i, x), ItemsFit(s.w.secrets, i, rest));
      assert ItemsFit(s.w.secrets, i, items) <==> Fit(s.w.secrets, i, x) && ItemsFit(s.w.secrets, i, rest);
    }
  }

  /** Everything a listing returns is fit. */
  ghost predicate AllFit(w: World, i: Instance, kind: Kind, selector: Option<LabelSelector>) {
    forall u | u in w.objects && Picked(w.objects[u], kind, selector) :: Fit(w.secrets, i, w.objects[u])
  }

  function KindCalls(w: World, kind: Kind, selector: Option<LabelSelector>): nat {
    1 + Calls(List(w.objects, Order(w), kind, selector))
  }

  lemma ListFits(w: World, i: Instance, kind: Kind, selector: Option<LabelSelector>)
    requires WF(w)
    ensures AllFit(w, i, kind, selector) <==> ItemsFit(w.secrets, i, List(w.objects, Order(w), kind, selector))
  {
    var items := List(w.objects, Order(w), kind, selector);
    ListMembers(w, kind, selector);
    if ItemsFit(w.secrets, i, items) {
      forall u | u in w.objects && Picked(w.objects[u], kind, selector)
        ensures Fit(w.secrets, i, w.objects[u])
      {
        assert w.objects[u] in items;
      }
    }
  }

  lemma MarksDecide(p: Params, s: State, i: Instance, items: seq<Object>, kind: Kind)
    requires QuietTicks(s.ticks) && Settleable(p, s.w, items, kind) && forall o | o in items :: o.uid in s.w.objects
    ensures var m := if i.deleting then Outcome(s, true) else MarkAll(p, s, items);
            && Decides(s, m, |items|, true) && Settleable(p, m.s.w, items, kind) && m.s.w.secrets == s.w.secrets
            && forall o | o in items :: o.uid in m.s.w.objects
  {
    MarkAllDecides(p, s, items);
    MarkAllIsQuiet(p, s, items);
    SettleableLater(p, s.w, MarkAll(p, s, items).s.w, items, kind);
  }

  lemma ProcessDecides(p: Params, s: State, i: Instance, organization: string, items: seq<Object>, kind: Kind)
    requires QuietTicks(s.ticks) && Settleable(p, s.w, items, kind) && forall o | o in items :: o.uid in s.w.objects
    ensures Decides(s, Process(p, s, i, organization, items), Calls(items), ItemsFit(s.w.secrets, i, items))
  {
    CallsAdd(items);
    MarksDecide(p, s, i, items, kind);
    var m := if i.deleting then Outcome(s, true) else MarkAll(p, s, items);
    if m.ok {
      SettleAllDecides(p, m.s, i, organization, items, kind);
    }
    DecidesThen(s, m, Process(p, s, i, organization, items), |items|, SettleAllCalls(items), true, ItemsFit(s.w.secrets, i, items));
  }

  lemma ReconcileKindDecides(p: Params, s: State, i: Instance, kind: Kind, selector: Option<LabelSelector>, organization: string)
    requires QuietTicks(s.ticks) && WF(s.w)
    ensures Decides(s, ReconcileKind(p, s, i, kind, selector, organization), KindCalls(s.w, kind, selector),
                    Convertible(selector) && Convertible(p.selector) && AllFit(s.w, i, kind, selector))
  {
    if Convertible(selector) && Convertible(p.selector) {
      var items := List(s.w.objects, Order(s.w), kind, selector);
      BeginDecides(p, s);
      SnapshotIsSettleable(p, s.w, kind, selector);
      ListDistinct(s.w, kind, selector);
      ListFits(s.w, i, kind, selector);
      ProcessDecides(p, Begin(p, s).s, i, organization, items, kind);
    }
  }

  lemma CallsCons(objects: map<nat, Object>, order: seq<nat>, kind: Kind, selector: Option<LabelSelector>)
    requires order != []
    ensures Calls(List(objects, order, kind, selector)) ==
            (if order[0] in objects && Picked(objects[order[0]], kind, selector) then 1 + SettleCalls(objects[order[0]]) else 0)
            + Calls(List(objects, order[1..], kind, selector))
  {
    var rest := List(objects, order[1..], kind, selector);
    if order[0] in objects && Picked(objects[order[0]], kind, selector) {
      assert ([objects[order[0]]] + rest)[1..] == rest;
    } else {
      assert [] + rest == rest;
    }
  }

  lemma {:induction false} CallsFall(p: Params, w: World, w': World, order: seq<nat>, kind: Kind, selector: Option<LabelSelector>)
    requires Isolates(p, w, w')
    ensures Calls(List(w'.objects, order, kind, selector)) <= Calls(List(w.objects, order, kind, selector))
  {
    if order != [] {
      CallsFall(p, w, w', order[1..], kind, selector);
      CallsCons(w.objects, order, kind, selector);
      CallsCons(w'.objects, order, kind, selector);
      assert order[0] in w'.objects ==> Same(p, w.objects[order[0]], w'.objects[order[0]]);
    }
  }

  lemma KindCallsFall(p: Params, w: World, w': World, kind: Kind, selector: Option<LabelSelector>)
    requires Isolates(p, w, w')
    ensures KindCalls(w', kind, selector) <= KindCalls(w, kind, selector)
  {
    CallsFall(p, w, w', Order(w), kind, selector);
  }

  /** What went in between was fit. */
  ghost predicate GoneFit(w: World, w': World, i: Instance) {
    forall u | u in w.objects && u !in w'.objects :: Fit(w.secrets, i, w.objects[u])
  }

  lemma FitSame(p: Params, secrets: Secrets, i: Instance, o: Object, o': Object)
    requires Same(p, o, o')
    ensures Fit(secrets, i, o') <==> Fit(secrets, i, o)
  {
    assert o'.spec == o.spec;
  }

  lemma AllFitLater(p: Params, w: World, w': World, i: Instance, kind: Kind, selector: Option<LabelSelector>)
    requires Isolates(p, w, w')
    ensures AllFit(w, i, kind, selector) ==> AllFit(w', i, kind, selector)
    ensures GoneFit(w, w', i) ==> (AllFit(w', i, kind, selector) <==> AllFit(w, i, kind, selector))
  {
    forall u | u in w'.objects
      ensures Picked(w'.objects[u], kind, selector) <==> Picked(w.objects[u], kind, selector)
      ensures Fit(w'.secrets, i, w'.objects[u]) <==> Fit(w.secrets, i, w.objects[u])
    {
      FitSame(p, w.secrets, i, w.objects[u], w'.objects[u]);
    }
  }

  lemma GoneFitTransitive(p: Params, w: World, a: World, r: World, i: Instance)
    requires Isolates(p, w, a) && Isolates(p, a, r) && GoneFit(w, a, i) && GoneFit(a, r, i)
    ensures GoneFit(w, r, i)
  {
    forall u | u in w.objects && u !in r.objects && u in a.objects
      ensures Fit(w.secrets, i, w.objects[u])
    {
      FitSame(p, w.secrets, i, w.objects[u], a.objects[u]);
    }
  }

  /** A kind that was completed. */
  lemma KindGoneFit(p: Params, s: State, i: Instance, kind: Kind, selector: Option<LabelSelector>, organization: string)
    requires QuietTicks(s.ticks) && WF(s.w)
    ensures var r := ReconcileKind(p, s, i, kind, selector, organization);
            && WF(r.s.w) && Isolates(p, s.w, r.s.w) && (r.ok ==> GoneFit(s.w, r.s.w, i)) && r.s.w.instance == s.w.instance
  {
    ReconcileKindDecides(p, s, i, kind, selector, organization);
    ReconcileKindIsQuiet(p, s, i, kind, selector, organization);
    ListMembers(s.w, kind, selector);
    var r, items := ReconcileKind(p, s, i, kind, selector, organization), List(s.w.objects, Order(s.w), kind, selector);
    forall u | u in s.w.objects && u !in r.s.w.objects && r.ok
      ensures Fit(s.w.secrets, i, s.w.objects[u])
    {
      assert u in Uids(items);
    }
  }

  function OwnedCalls(w: World, orgs: seq<Object>): nat {
    if orgs == [] then 0
    else KindCalls(w, FeatureKind, OwnSelector(orgs[0])) + KindCalls(w, ClientKind, OwnSelector(orgs[0])) + OwnedCalls(w, orgs[1..])
  }

  lemma {:induction false} OwnedCallsFall(p: Params, w: World, w': World, orgs: seq<Object>)
    requires Isolates(p, w, w')
    ensures OwnedCalls(w', orgs) <= OwnedCalls(w, orgs)
  {
    if orgs != [] {
      KindCallsFall(p, w, w', FeatureKind, OwnSelector(orgs[0]));
      KindCallsFall(p, w, w', ClientKind, OwnSelector(orgs[0]));
      OwnedCallsFall(p, w, w', orgs[1..]);
    }
  }

  ghost predicate OrganizationFit(w: World, i: Instance, org: Object) {
    Convertible(OwnSelector(org)) && AllFit(w, i, FeatureKind, OwnSelector(org)) && AllFit(w, i, ClientKind, OwnSelector(org))
  }

  ghost predicate OwnedFit(w: World, i: Instance, orgs: seq<Object>) {
    forall org | org in orgs :: OrganizationFit(w, i, org)
  }

  lemma OwnedFitLater(p: Params, w: World, w': World, i: Instance, orgs: seq<Object>)
    requires Isolates(p, w, w') && GoneFit(w, w', i)
    ensures OwnedFit(w', i, orgs) <==> OwnedFit(w, i, orgs)
  {
    forall org | org in orgs
      ensures OrganizationFit(w', i, org) <==> OrganizationFit(w, i, org)
    {
      AllFitLater(p, w, w', i, FeatureKind, OwnSelector(org));
      AllFitLater(p, w, w', i, ClientKind, OwnSelector(org));
    }
  }

  lemma OrganizationDecides(p: Params, s: State, i: Instance, org: Object)
    requires QuietTicks(s.ticks) && WF(s.w) && org.spec.OrganizationSpec? && Convertible(p.selector)
    ensures var r := ReconcileOrganization(p, s, i, org);
            && Decides(s, r, OwnedCalls(s.w, [org]), OrganizationFit(s.w, i, org))
            && WF(r.s.w) && Isolates(p, s.w, r.s.w) && (r.ok ==> GoneFit(s.w, r.s.w, i))
  {
    var selector := org.spec.resourceSelector;
    ReconcileKindDecides(p, s, i, FeatureKind, selector, org.Id());
    KindGoneFit(p, s, i, FeatureKind, selector, org.Id());
    var f := ReconcileKind(p, s, i, FeatureKind, selector, org.Id());
    assert OwnedCalls(s.w, [org][1..]) == 0;
    if f.ok {
      KindCallsFall(p, s.w, f.s.w, ClientKind, selector);
      ReconcileKindDecides(p, f.s, i, ClientKind, selector, org.Id());
      KindGoneFit(p, f.s, i, ClientKind, selector, org.Id());
      var c := ReconcileKind(p, f.s, i, ClientKind, selector, org.Id());
      AllFitLater(p, s.w, f.s.w, i, ClientKind, selector);
      IsolatesTransitive(p, s.w, f.s.w, c.s.w);
      if c.ok {
        GoneFitTransitive(p, s.w, f.s.w, c.s.w, i);
      }
    }
  }

  lemma {:induction false} ReconcileOwnedDecides(p: Params, s: State, i: Instance, orgs: seq<Object>)
    requires QuietTicks(s.ticks) && WF(s.w) && Convertible(p.selector) && forall o | o in orgs :: o.spec.OrganizationSpec?
    ensures Decides(s, ReconcileOwned(p, s, i, orgs), OwnedCalls(s.w, orgs), OwnedFit(s.w, i, orgs))
    decreases |orgs|
  {
    if orgs != [] {
      var org, rest := orgs[0], orgs[1..];
      assert orgs == [org] + rest && OwnedCalls(s.w, [org][1..]) == 0;
      OrganizationDecides(p, s, i, org);
      var c := ReconcileOrganization(p, s, i, org);
      if c.ok {
        OwnedCallsFall(p, s.w, c.s.w, rest);
        ReconcileOwnedDecides(p, c.s, i, rest);
        OwnedFitLater(p, s.w, c.s.w, i, rest);
      }
    }
  }

  /** Everything a pass deals with is fit. */
  ghost predicate Sound(p: Params, w: World, i: Instance) {
    && Convertible(p.selector)
    && AllFit(w, i, UserKind, p.selector) && AllFit(w, i, OrganizationKind, p.selector)
    && OwnedFit(w, i, ListedOrganizations(p, w))
  }

  /** As many calls as a pass can need. */
  function PassCalls(p: Params, w: World): nat {
    3 + KindCalls(w, UserKind, p.selector) + KindCalls(w, OrganizationKind, p.selector) + OwnedCalls(w, ListedOrganizations(p, w))
  }

  lemma ReconcileAllDecides(p: Params, s: State, i: Instance)
    requires QuietTicks(s.ticks) && WF(s.w)
    ensures Decides(s, ReconcileAll(p, s, i), PassCalls(p, s.w) - 3, Sound(p, s.w, i))
  {
    var s0 := s.(catalog := []);
    ReconcileKindDecides(p, s0, i, UserKind, p.selector, "");
    KindGoneFit(p, s0, i, UserKind, p.selector, "");
    var u := ReconcileKind(p, s0, i, UserKind, p.selector, "");
    KindStep(p, s0, i, UserKind, p.selector, "");
    if u.ok {
      OrganizationsDecides(p, s.w, u.s, i);
    }
  }

  /** The part of a pass after the users. */
  lemma OrganizationsDecides(p: Params, w: World, s: State, i: Instance)
    requires QuietTicks(s.ticks) && WF(w) && WF(s.w) && Isolates(p, w, s.w) && GoneFit(w, s.w, i) && Convertible(p.selector)
    requires KindSettled(p, w, s.w, i, UserKind, p.selector, "", true)
    ensures var orgs := ListedOrganizations(p, w);
            var o := ReconcileKind(p, s, i, OrganizationKind, p.selector, "");
            && Snapshot(p, s, OrganizationKind, p.selector) == orgs && (forall x | x in orgs :: x.spec.OrganizationSpec?)
            && Decides(s, o, KindCalls(w, OrganizationKind, p.selector), AllFit(w, i, OrganizationKind, p.selector))
            && (o.ok ==> Decides(o.s, ReconcileOwned(p, o.s, i, orgs), OwnedCalls(w, orgs), OwnedFit(w, i, orgs)))
  {
    var orgs := ListedOrganizations(p, w);
    BeginIsQuiet(p, s);
    SnapshotKinds(p, s, p.selector);
    OrganizationsListed(p, w, s.w, i, true);
    KindCallsFall(p, w, s.w, OrganizationKind, p.selector);
    ReconcileKindDecides(p, s, i, OrganizationKind, p.selector, "");
    KindGoneFit(p, s, i, OrganizationKind, p.selector, "");
    AllFitLater(p, w, s.w, i, OrganizationKind, p.selector);
    var o := ReconcileKind(p, s, i, OrganizationKind, p.selector, "");
    if o.ok {
      IsolatesTransitive(p, w, s.w, o.s.w);
      GoneFitTransitive(p, w, s.w, o.s.w, i);
      OwnedCallsFall(p, w, o.s.w, orgs);
      ReconcileOwnedDecides(p, o.s, i, orgs);
      OwnedFitLater(p, w, o.s.w, i, orgs);
    }
  }

  lemma PatchInstanceDecides(p: Params, s: State, finalizers: seq<string>)
    requires QuietTicks(s.ticks) && s.w.instance.Some?
    requires s.w.instance.value.deleting ==> forall f | f in finalizers :: f in s.w.instance.value.finalizers
    ensures Decides(s, PatchInstance(p, s, finalizers), 1, true)
  {
    BeginDecides(p, s);
  }

  lemma OpeningDecides(p: Params, s: State)
    requires QuietTicks(s.ticks) && WF(s.w) && s.w.instance.Some? && !p.suspend
    ensures Decides(s, Opening(p, s), 2, true)
  {
    BeginDecides(p, s);
    var i := s.w.instance.value;
    if !i.deleting {
      PatchInstanceDecides(p, Begin(p, s).s, With(i.finalizers, FinalizerNames.FINALIZER));
    }
  }

  lemma ClosingDecides(p: Params, m: State, i: Instance)
    requires QuietTicks(m.ticks) && WF(m.w) && m.w.instance == Some(i)
    ensures var t := ReconcileAll(p, m, i).s; Decides(t, PatchInstance(p, t, Without(i.finalizers, FinalizerNames.FINALIZER)), 1, true)
  {
    ReconcileAllProgress(p, m, i);
    WithoutMembers(i.finalizers, FinalizerNames.FINALIZER);
    PatchInstanceDecides(p, ReconcileAll(p, m, i).s, Without(i.finalizers, FinalizerNames.FINALIZER));
  }

  /** An undisturbed pass completes only if everything it lists is fit: selectors convert, features translate, and
      what is live has the secret it asks for. And then it does complete, if no call fails and it is given as many
      as it can need. */
  lemma PassCompletesExactly(p: Params, w: World, ticks: seq<Tick>)
    requires WF(w) && w.instance.Some? && !p.suspend && QuietTicks(ticks)
    ensures var r := Reconcile(p, State(w, ticks, []));
            && (r.ok ==> Sound(p, w, w.instance.value))
            && (Calm(ticks) && |ticks| >= PassCalls(p, w) ==> (r.ok <==> Sound(p, w, w.instance.value)))
  {
    var s, i := State(w, ticks, []), w.instance.value;
    PassUnfolds(p, s);
    BeginIsQuiet(p, s);
    OpeningDecides(p, s);
    var m := Opening(p, s);
    if m.ok {
      SoundByInstance(p, w, m.s.w, i);
      ReconcileAllDecides(p, m.s, i);
      if i.deleting {
        ClosingDecides(p, m.s, i);
      }
    }
  }

  lemma SoundByInstance(p: Params, w: World, w': World, i: Instance)
    requires w' == w.(instance := w'.instance)
    ensures Sound(p, w', i) <==> Sound(p, w, i)
    ensures PassCalls(p, w') == PassCalls(p, w)
  {
    OwnedCallsSame(w, w', ListedOrganizations(p, w));
    assert forall org :: OrganizationFit(w', i, org) <==> OrganizationFit(w, i, org);
  }

  lemma {:induction false} OwnedCallsSame(w: World, w': World, orgs: seq<Object>)
    requires w' == w.(instance := w'.instance)
    ensures OwnedCalls(w', orgs) == OwnedCalls(w, orgs)
  {
    if orgs != [] {
      OwnedCallsSame(w, w', orgs[1..]);
    }
  }

  lemma {:induction false} OwnedCallsAlike(p: Params, w: World, v: World, orgs: seq<Object>, orgs': seq<Object>)
    requires Isolates(p, w, v) && Alike(orgs, orgs')
    ensures OwnedCalls(v, orgs') <= OwnedCalls(w, orgs)
  {
    if orgs != [] {
      assert OwnSelector(orgs'[0]) == OwnSelector(orgs[0]);
      KindCallsFall(p, w, v, FeatureKind, OwnSelector(orgs[0]));
      KindCallsFall(p, w, v, ClientKind, OwnSelector(orgs[0]));
      OwnedCallsAlike(p, w, v, orgs[1..], orgs'[1..]);
    }
  }

  /** A sound cluster stays sound under undisturbed passes, and needs no more calls. */
  lemma SoundLater(p: Params, w: World, v: World, i: Instance, j: Instance)
    requires WF(w) && Steady(w) && Isolates(p, w, v) && Sound(p, w, i) && i.deleting == j.deleting
    ensures Sound(p, v, j) && PassCalls(p, v) <= PassCalls(p, w)
  {
    var orgs, orgs' := ListedOrganizations(p, w), ListedOrganizations(p, v);
    OrganizationsAlike(p, w, v);
    AllFitByDeleting(v, i, j);
    AllFitLater(p, w, v, i, UserKind, p.selector);
    AllFitLater(p, w, v, i, OrganizationKind, p.selector);
    KindCallsFall(p, w, v, UserKind, p.selector);
    KindCallsFall(p, w, v, OrganizationKind, p.selector);
    OwnedCallsAlike(p, w, v, orgs, orgs');
    forall org' | org' in orgs'
      ensures OrganizationFit(v, j, org')
    {
      var n :| 0 <= n < |orgs'| && orgs'[n] == org';
      assert OwnSelector(org') == OwnSelector(orgs[n]) && OrganizationFit(w, i, orgs[n]);
      AllFitLater(p, w, v, i, FeatureKind, OwnSelector(org'));
      AllFitLater(p, w, v, i, ClientKind, OwnSelector(org'));
    }
  }

  lemma AllFitByDeleting(w: World, i: Instance, j: Instance)
    requires i.deleting == j.deleting
    ensures forall kind, selector :: AllFit(w, j, kind, selector) <==> AllFit(w, i, kind, selector)
  {
    assert forall o :: Fit(w.secrets, j, o) <==> Fit(w.secrets, i, o);
  }

  lemma {:induction false} QuietRunIsolates(p: Params, w: World, v: World, rounds: seq<Round>)
    requires WF(v) && Isolates(p, w, v) && forall r | r in rounds :: QuietRound(r)
    ensures var x := Run(p, v, rounds);
            && WF(x) && Isolates(p, w, x)
            && (x.instance.Some? ==> v.instance.Some? && x.instance.value.deleting == v.instance.value.deleting)
    decreases |rounds|
  {
    if rounds != [] {
      assert QuietRound(rounds[0]);
      var x := Reconcile(p, State(v, rounds[0].ticks, [])).s.w;
      QuietPassIsolates(p, v, rounds[0].ticks);
      IsolatesTransitive(p, w, v, x);
      QuietRunIsolates(p, w, x, rounds[1..]);
    }
  }

  /** On a sound cluster in which no organization is being deleted a calm pass completes however often passes
      were cut short before it. So there restart confluence has nothing left to assume. */
  lemma RestartCompletes(p: Params, w: World, rounds: seq<Round>, last: seq<Tick>)
    requires WF(w) && Steady(w) && w.instance.Some? && !p.suspend && Sound(p, w, w.instance.value)
    requires Calm(last) && |last| >= PassCalls(p, w) && forall r | r in rounds :: QuietRound(r)
    ensures Reconcile(p, State(Run(p, w, rounds), last, [])).ok
  {
    var v := Run(p, w, rounds);
    QuietRunIsolates(p, w, w, rounds);
    if v.instance.Some? {
      SoundLater(p, w, v, w.instance.value, v.instance.value);
      PassCompletesExactly(p, v, last);
    } else {
      BeginDecides(p, State(v, last, []));
    }
  }

  /** Restart confluence with the completion of both passes proved. */
  lemma SoundClusterConfluence(p: Params, w: World, rounds: seq<Round>, once: seq<Tick>, last: seq<Tick>)
    requires WF(w) && Steady(w) && w.instance.Some? && !p.suspend && Sound(p, w, w.instance.value)
    requires Calm(once) && Calm(last) && |once| >= PassCalls(p, w) && |last| >= PassCalls(p, w)
    requires forall r | r in rounds :: QuietRound(r)
    ensures var clean, restarted := Reconcile(p, State(w, once, [])), Reconcile(p, State(Run(p, w, rounds), last, []));
            && clean.ok && restarted.ok
            && forall k :: Look(restarted.s.w.docs, k) == Look(clean.s.w.docs, k)
  {
    RestartCompletes(p, w, [], once);
    RestartCompletes(p, w, rounds, last);
    RestartConfluence(p, w, rounds, once, last);
  }
}
