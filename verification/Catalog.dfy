/** The sub resource catalog a pass leaves: exact after a complete pass, a prefix of that after one cut short. */
module Catalog {
  import opened Wrappers
  import opened Documents
  import opened Selectors
  import opened Resources
  import opened Worlds
  import opened Pass
  import opened NoOrphans
  import opened NoStrands
  import opened Effects
  import opened Quiet
  import opened Target

  /** Each reference once, in the order of first occurrence, after those already there. */
  function Deduplicated(acc: seq<Ref>, refs: seq<Ref>): seq<Ref>
    decreases |refs|
  {
    if refs == [] then acc
    else Deduplicated(if refs[0] in acc then acc else acc + [refs[0]], refs[1..])
  }

  function FirstIndex(refs: seq<Ref>, r: Ref): (i: nat)
    requires r in refs
    ensures i < |refs| && refs[i] == r && r !in refs[..i]
  {
    if refs[0] == r then 0 else 1 + FirstIndex(refs[1..], r)
  }

  /** Built up from the end: the catalog of a longer list. */
  lemma {:induction false} DeduplicatedSnoc(acc: seq<Ref>, refs: seq<Ref>, r: Ref)
    ensures Deduplicated(acc, refs + [r]) == (if r in Deduplicated(acc, refs) then Deduplicated(acc, refs) else Deduplicated(acc, refs) + [r])
    decreases |refs|
  {
    if refs == [] {
      assert refs + [r] == [r];
    } else {
      assert (refs + [r])[1..] == refs[1..] + [r];
      DeduplicatedSnoc(if refs[0] in acc then acc else acc + [refs[0]], refs[1..], r);
    }
  }

  ghost predicate InFirstOrder(d: seq<Ref>, refs: seq<Ref>)
    requires forall r | r in d :: r in refs
  {
    forall i, j | 0 <= i < j < |d| :: FirstIndex(refs, d[i]) < FirstIndex(refs, d[j])
  }

  lemma {:induction false} FirstIndexAppend(refs: seq<Ref>, more: seq<Ref>, r: Ref)
    requires r in refs
    ensures FirstIndex(refs + more, r) == FirstIndex(refs, r)
  {
    if refs[0] != r {
      assert (refs + more)[1..] == refs[1..] + more;
      FirstIndexAppend(refs[1..], more, r);
    }
  }

  /** No duplicates, nothing missing, nothing made up, ordered by first occurrence. */
  lemma {:induction false} DeduplicatedExactly(refs: seq<Ref>)
    ensures var d := Deduplicated([], refs);
            && Distinct(d)
            && (forall r :: r in d <==> r in refs)
            && InFirstOrder(d, refs)
    decreases |refs|
  {
    if refs != [] {
      var n := |refs| - 1;
      var front, last := refs[..n], refs[n];
      var d, d' := Deduplicated([], front), Deduplicated([], refs);
      DeduplicatedExactly(front);
      assert refs == front + [last];
      DeduplicatedSnoc([], front, last);
      forall i, j | 0 <= i < j < |d'|
        ensures FirstIndex(refs, d'[i]) < FirstIndex(refs, d'[j])
      {
        assert d'[i] == d[i] && d[i] in d;
        FirstIndexAppend(front, [last], d[i]);
        if j < |d| {
          assert d[j] in d;
          FirstIndexAppend(front, [last], d[j]);
        }
      }
    }
  }

  lemma {:induction false} DeduplicatedAppend(acc: seq<Ref>, a: seq<Ref>, b: seq<Ref>)
    ensures Deduplicated(acc, a + b) == Deduplicated(Deduplicated(acc, a), b)
    decreases |a|
  {
    if a == [] {
      assert a + b == b;
    } else {
      assert (a + b)[1..] == a[1..] + b;
      DeduplicatedAppend(if a[0] in acc then acc else acc + [a[0]], a[1..], b);
    }
  }

  lemma {:induction false} DeduplicatedGrows(acc: seq<Ref>, refs: seq<Ref>)
    ensures acc <= Deduplicated(acc, refs)
    decreases |refs|
  {
    if refs != [] {
      DeduplicatedGrows(if refs[0] in acc then acc else acc + [refs[0]], refs[1..]);
    }
  }

  /** The references of what is listed and not being deleted. */
  function LiveRefs(items: seq<Object>): seq<Ref> {
    if items == [] then []
    else if items[0].deleting then LiveRefs(items[1..])
    else [RefOf(items[0])] + LiveRefs(items[1..])
  }

  function KindRefs(w: World, kind: Kind, selector: Option<LabelSelector>): seq<Ref> {
    LiveRefs(List(w.objects, Order(w), kind, selector))
  }

  function OwnedRefs(w: World, orgs: seq<Object>): seq<Ref> {
    if orgs == [] then []
    else KindRefs(w, FeatureKind, OwnSelector(orgs[0])) + KindRefs(w, ClientKind, OwnSelector(orgs[0])) + OwnedRefs(w, orgs[1..])
  }

  /** Users, organizations, and per listed organization its features and clients. */
  function AllRefs(p: Params, w: World): seq<Ref> {
    KindRefs(w, UserKind, p.selector) + KindRefs(w, OrganizationKind, p.selector) + OwnedRefs(w, ListedOrganizations(p, w))
  }

  lemma {:induction false} LiveRefsAppend(a: seq<Object>, b: seq<Object>)
    ensures LiveRefs(a + b) == LiveRefs(a) + LiveRefs(b)
  {
    if a == [] {
      assert a + b == b;
    } else {
      assert (a + b)[1..] == a[1..] + b;
      LiveRefsAppend(a[1..], b);
    }
  }

  lemma {:induction false} ListedRefsSame(p: Params, w: World, w': World, order: seq<nat>, kind: Kind, selector: Option<LabelSelector>)
    requires Isolates(p, w, w')
    ensures LiveRefs(List(w'.objects, order, kind, selector)) == LiveRefs(List(w.objects, order, kind, selector))
  {
    if order != [] {
      ListedRefsSame(p, w, w', order[1..], kind, selector);
      ListCons(w.objects, order, kind, selector);
      ListCons(w'.objects, order, kind, selector);
      EntrySame(p, w, w', order[0], kind, selector);
    }
  }

  lemma EntrySame(p: Params, w: World, w': World, u: nat, kind: Kind, selector: Option<LabelSelector>)
    requires Isolates(p, w, w')
    ensures Entry(w'.objects, u, kind, selector) == Entry(w.objects, u, kind, selector)
  {
  }

  function Entry(objects: map<nat, Object>, u: nat, kind: Kind, selector: Option<LabelSelector>): seq<Ref> {
    if u in objects && Picked(objects[u], kind, selector) && !objects[u].deleting then [RefOf(objects[u])] else []
  }

  lemma ListCons(objects: map<nat, Object>, order: seq<nat>, kind: Kind, selector: Option<LabelSelector>)
    requires order != []
    ensures LiveRefs(List(objects, order, kind, selector)) == Entry(objects, order[0], kind, selector) + LiveRefs(List(objects, order[1..], kind, selector))
  {
    var u := order[0];
    var x := if u in objects && Picked(objects[u], kind, selector) then [objects[u]] else [];
    LiveRefsAppend(x, List(objects, order[1..], kind, selector));
    assert x != [] ==> x[1..] == [];
  }

  lemma {:induction false} OwnedRefsSame(p: Params, w: World, w': World, orgs: seq<Object>)
    requires Isolates(p, w, w')
    ensures OwnedRefs(w', orgs) == OwnedRefs(w, orgs)
  {
    if orgs != [] {
      ListedRefsSame(p, w, w', Order(w), FeatureKind, OwnSelector(orgs[0]));
      ListedRefsSame(p, w, w', Order(w), ClientKind, OwnSelector(orgs[0]));
      OwnedRefsSame(p, w, w', orgs[1..]);
    }
  }

  /** A step that adds the references, or some first of them if cut short. */
  ghost predicate Adding(before: seq<Ref>, after: seq<Ref>, refs: seq<Ref>, ok: bool) {
    after <= Deduplicated(before, refs) && (ok ==> after == Deduplicated(before, refs))
  }

  lemma AddingTwice(a: seq<Ref>, b: seq<Ref>, c: seq<Ref>, x: seq<Ref>, y: seq<Ref>, ok: bool)
    requires Adding(a, b, x, true) && Adding(b, c, y, ok)
    ensures Adding(a, c, x + y, ok)
  {
    DeduplicatedAppend(a, x, y);
  }

  lemma AddingStops(a: seq<Ref>, b: seq<Ref>, x: seq<Ref>, y: seq<Ref>)
    requires Adding(a, b, x, false)
    ensures Adding(a, b, x + y, false)
  {
    DeduplicatedAppend(a, x, y);
    DeduplicatedGrows(Deduplicated(a, x), y);
  }

  lemma {:induction false} MarkAllCatalogs(p: Params, s: State, items: seq<Object>)
    ensures var r := MarkAll(p, s, items); Adding(s.catalog, r.s.catalog, LiveRefs(items), r.ok)
    decreases |items|
  {
    DeduplicatedGrows(s.catalog, LiveRefs(items));
    if items != [] {
      var o := items[0];
      var a := AddFinalizer(p, s, o);
      assert a.s.catalog == s.catalog;
      if a.ok {
        var s' := if o.deleting then a.s else a.s.(catalog := Catalogued(a.s.catalog, o));
        MarkAllCatalogs(p, s', items[1..]);
        if !o.deleting {
          assert LiveRefs(items)[1..] == LiveRefs(items[1..]);
        }
      }
    }
  }

  /** On every schedule and wherever the first loop stops: what it adds to the catalog are references of live listed
      objects that exist and carry the finalizer by then. An object whose patch failed is not entered. */
  lemma {:induction false} CataloguedIsMarked(p: Params, s: State, items: seq<Object>, ref: Ref)
    requires WF(s.w)
    ensures var r := MarkAll(p, s, items).s;
            ref in r.catalog && ref !in s.catalog ==> exists o | o in items :: !o.deleting && RefOf(o) == ref && Holds(p, r.w, o)
    decreases |items|
  {
    var r := MarkAll(p, s, items).s;
    if items != [] && ref in r.catalog && ref !in s.catalog {
      var o := items[0];
      var a := AddFinalizer(p, s, o);
      assert a.s.catalog == s.catalog && a.ok;
      if !o.deleting {
        PatchEvolves(p, s, o.uid, With(o.finalizers, p.finalizer));
      }
      var t := if o.deleting then a.s else a.s.(catalog := Catalogued(a.s.catalog, o));
      MarkAllEvolves(p, t, items[1..]);
      if ref in t.catalog {
        assert RefOf(o) == ref && Holds(p, r.w, o);
      } else {
        CataloguedIsMarked(p, t, items[1..], ref);
        var x :| x in items[1..] && !x.deleting && RefOf(x) == ref && Holds(p, r.w, x);
        assert x in items;
      }
    }
  }

  lemma ProcessCatalogs(p: Params, s: State, i: Instance, organization: string, items: seq<Object>, kind: Kind)
    requires QuietTicks(s.ticks) && Settleable(p, s.w, items, kind)
    ensures var r := Process(p, s, i, organization, items);
            if i.deleting then r.s.catalog == s.catalog else Adding(s.catalog, r.s.catalog, LiveRefs(items), r.ok)
  {
    MarkAllIsQuiet(p, s, items);
    MarkAllCatalogs(p, s, items);
    var m := if i.deleting then Outcome(s, true) else MarkAll(p, s, items);
    if m.ok {
      CurrentLater(p, s.w, m.s.w, items);
      SettleAllIsQuiet(p, m.s, i, organization, items, kind);
    }
  }

  lemma ReconcileKindCatalogs(p: Params, s: State, i: Instance, kind: Kind, selector: Option<LabelSelector>, organization: string)
    requires QuietTicks(s.ticks) && WF(s.w)
    ensures var r := ReconcileKind(p, s, i, kind, selector, organization);
            if i.deleting then r.s.catalog == s.catalog else Adding(s.catalog, r.s.catalog, KindRefs(s.w, kind, selector), r.ok)
  {
    BeginIsQuiet(p, s);
    var b, items := Begin(p, s), List(s.w.objects, Order(s.w), kind, selector);
    if b.ok && Convertible(selector) && Convertible(p.selector) {
      SnapshotIsSettleable(p, s.w, kind, selector);
      ProcessCatalogs(p, b.s, i, organization, items, kind);
    } else {
      DeduplicatedGrows(s.catalog, LiveRefs(items));
    }
  }

  lemma {:induction false} ReconcileOwnedCatalogs(p: Params, s: State, i: Instance, orgs: seq<Object>)
    requires QuietTicks(s.ticks) && WF(s.w) && forall o | o in orgs :: o.spec.OrganizationSpec?
    ensures var r := ReconcileOwned(p, s, i, orgs);
            if i.deleting then r.s.catalog == s.catalog else Adding(s.catalog, r.s.catalog, OwnedRefs(s.w, orgs), r.ok)
    decreases |orgs|
  {
    if orgs != [] {
      var selector, id := orgs[0].spec.resourceSelector, orgs[0].Id();
      var x, y, z := KindRefs(s.w, FeatureKind, selector), KindRefs(s.w, ClientKind, selector), OwnedRefs(s.w, orgs[1..]);
      ReconcileKindCatalogs(p, s, i, FeatureKind, selector, id);
      ReconcileKindIsQuiet(p, s, i, FeatureKind, selector, id);
      var f := ReconcileKind(p, s, i, FeatureKind, selector, id);
      ReconcileKindCatalogs(p, f.s, i, ClientKind, selector, id);
      ReconcileKindIsQuiet(p, f.s, i, ClientKind, selector, id);
      var c := ReconcileKind(p, f.s, i, ClientKind, selector, id);
      ListedRefsSame(p, s.w, f.s.w, Order(s.w), ClientKind, selector);
      IsolatesTransitive(p, s.w, f.s.w, c.s.w);
      ReconcileOwnedCatalogs(p, c.s, i, orgs[1..]);
      OwnedRefsSame(p, s.w, c.s.w, orgs[1..]);
      if !i.deleting {
        ThreeSteps(s.catalog, f.s.catalog, c.s.catalog, ReconcileOwned(p, c.s, i, orgs[1..]).s.catalog, x, y, z, f.ok, c.ok, ReconcileOwned(p, c.s, i, orgs[1..]).ok);
      }
    }
  }

  /** Three steps in a row, each taken only if those before it completed. */
  lemma ThreeSteps(a: seq<Ref>, b: seq<Ref>, c: seq<Ref>, d: seq<Ref>, x: seq<Ref>, y: seq<Ref>, z: seq<Ref>, first: bool, second: bool, third: bool)
    requires Adding(a, b, x, first) && Adding(b, c, y, second) && Adding(c, d, z, third)
    ensures !first ==> Adding(a, b, x + y + z, false)
    ensures first && !second ==> Adding(a, c, x + y + z, false)
    ensures first && second ==> Adding(a, d, x + y + z, third)
  {
    assert x + y + z == x + (y + z);
    if !first {
      AddingStops(a, b, x, y + z);
    } else {
      AddingTwice(a, b, c, x, y, second);
      if !second {
        AddingStops(a, c, x + y, z);
      } else {
        AddingTwice(a, c, d, x + y, z, third);
      }
    }
  }

  lemma ReconcileAllCatalogs(p: Params, s: State, i: Instance)
    requires QuietTicks(s.ticks) && WF(s.w)
    ensures var r := ReconcileAll(p, s, i);
            if i.deleting then r.s.catalog == [] else Adding([], r.s.catalog, AllRefs(p, s.w), r.ok)
  {
    var s0 := s.(catalog := []);
    ReconcileKindCatalogs(p, s0, i, UserKind, p.selector, "");
    KindStep(p, s0, i, UserKind, p.selector, "");
    var u := ReconcileKind(p, s0, i, UserKind, p.selector, "");
    ReconcileKindCatalogs(p, u.s, i, OrganizationKind, p.selector, "");
    ReconcileKindIsQuiet(p, u.s, i, OrganizationKind, p.selector, "");
    var o := ReconcileKind(p, u.s, i, OrganizationKind, p.selector, "");
    BeginIsQuiet(p, u.s);
    SnapshotKinds(p, u.s, p.selector);
    var orgs := ListedOrganizations(p, u.s.w);
    OrganizationsListed(p, s.w, u.s.w, i, u.ok);
    ListedRefsSame(p, s.w, u.s.w, Order(s.w), OrganizationKind, p.selector);
    IsolatesTransitive(p, s.w, u.s.w, o.s.w);
    OwnedRefsSame(p, s.w, o.s.w, orgs);
    ReconcileOwnedCatalogs(p, o.s, i, orgs);
    var t := ReconcileOwned(p, o.s, i, orgs);
    if !i.deleting {
      ThreeSteps([], u.s.catalog, o.s.catalog, t.s.catalog,
                 KindRefs(s.w, UserKind, p.selector), KindRefs(s.w, OrganizationKind, p.selector), OwnedRefs(s.w, orgs), u.ok, o.ok, t.ok);
    }
  }

  lemma CatalogFollows(p: Params, w: World, ticks: seq<Tick>, before: seq<Ref>)
    requires QuietTicks(ticks) && WF(w) && w.instance.Some? && !p.suspend
    ensures var r := Reconcile(p, State(w, ticks, before));
            if !Opening(p, State(w, ticks, before)).ok then !r.ok && r.s.catalog == before
            else if w.instance.value.deleting then r.s.catalog == []
            else Adding([], r.s.catalog, AllRefs(p, w), r.ok)
  {
    var s := State(w, ticks, before);
    PassUnfolds(p, s);
    var m := Opening(p, s);
    if m.ok {
      ReconcileAllCatalogs(p, m.s, w.instance.value);
      OwnedRefsSame(p, w, m.s.w, ListedOrganizations(p, w));
    }
  }

  /** The resources a pass of a live instance catalogues. */
  ghost function LiveListed(p: Params, w: World): set<nat> {
    set u | u in w.objects && Listed(p, w, w.objects[u]) && !w.objects[u].deleting
  }

  lemma {:induction false} LiveRefsExactly(items: seq<Object>, r: Ref)
    ensures r in LiveRefs(items) <==> exists o | o in items :: !o.deleting && RefOf(o) == r
  {
    if items != [] {
      LiveRefsExactly(items[1..], r);
      assert items == [items[0]] + items[1..];
    }
  }

  ghost predicate Names(w: World, kind: Kind, selector: Option<LabelSelector>, r: Ref) {
    exists u | u in w.objects :: Picked(w.objects[u], kind, selector) && !w.objects[u].deleting && RefOf(w.objects[u]) == r
  }

  lemma KindRefsExactly(w: World, kind: Kind, selector: Option<LabelSelector>, r: Ref)
    requires WF(w)
    ensures r in KindRefs(w, kind, selector) <==> Names(w, kind, selector, r)
  {
    var items := List(w.objects, Order(w), kind, selector);
    LiveRefsExactly(items, r);
    ListMembers(w, kind, selector);
    if Names(w, kind, selector, r) {
      var u :| u in w.objects && Picked(w.objects[u], kind, selector) && !w.objects[u].deleting && RefOf(w.objects[u]) == r;
      assert w.objects[u] in items;
    }
  }

  lemma {:induction false} OwnedRefsExactly(w: World, orgs: seq<Object>, r: Ref)
    requires WF(w)
    ensures r in OwnedRefs(w, orgs) <==>
            exists org | org in orgs :: Names(w, FeatureKind, OwnSelector(org), r) || Names(w, ClientKind, OwnSelector(org), r)
  {
    if orgs != [] {
      KindRefsExactly(w, FeatureKind, OwnSelector(orgs[0]), r);
      KindRefsExactly(w, ClientKind, OwnSelector(orgs[0]), r);
      OwnedRefsExactly(w, orgs[1..], r);
      assert orgs == [orgs[0]] + orgs[1..];
    }
  }

  /** The references are those of the live listed resources. */
  lemma AllRefsExactly(p: Params, w: World, r: Ref)
    requires WF(w)
    ensures r in AllRefs(p, w) <==> exists u | u in LiveListed(p, w) :: RefOf(w.objects[u]) == r
  {
    var orgs := ListedOrganizations(p, w);
    KindRefsExactly(w, UserKind, p.selector, r);
    KindRefsExactly(w, OrganizationKind, p.selector, r);
    OwnedRefsExactly(w, orgs, r);
    if r in AllRefs(p, w) {
      RefIsLiveListed(p, w, r);
    }
    if u :| u in LiveListed(p, w) && RefOf(w.objects[u]) == r {
      LiveListedIsNamed(p, w, u);
    }
  }

  lemma RefIsLiveListed(p: Params, w: World, r: Ref)
    requires WF(w)
    requires || Names(w, UserKind, p.selector, r) || Names(w, OrganizationKind, p.selector, r)
             || exists org | org in ListedOrganizations(p, w) :: Names(w, FeatureKind, OwnSelector(org), r) || Names(w, ClientKind, OwnSelector(org), r)
    ensures exists u | u in LiveListed(p, w) :: RefOf(w.objects[u]) == r
  {
    if Names(w, UserKind, p.selector, r) || Names(w, OrganizationKind, p.selector, r) {
      var u :| u in w.objects && Selects(p.selector, w.objects[u].labels) && !Nested(w.objects[u]) && !w.objects[u].deleting && RefOf(w.objects[u]) == r;
      assert u in LiveListed(p, w);
    } else {
      var orgs := ListedOrganizations(p, w);
      var org :| org in orgs && (Names(w, FeatureKind, OwnSelector(org), r) || Names(w, ClientKind, OwnSelector(org), r));
      var u :| u in w.objects && Selects(OwnSelector(org), w.objects[u].labels) && Nested(w.objects[u]) && !w.objects[u].deleting && RefOf(w.objects[u]) == r;
      FirstOwnerExists(orgs, w.objects[u]);
      assert u in LiveListed(p, w);
    }
  }

  lemma LiveListedIsNamed(p: Params, w: World, u: nat)
    requires u in LiveListed(p, w)
    ensures var r := RefOf(w.objects[u]);
            || Names(w, UserKind, p.selector, r) || Names(w, OrganizationKind, p.selector, r)
            || exists org | org in ListedOrganizations(p, w) :: Names(w, FeatureKind, OwnSelector(org), r) || Names(w, ClientKind, OwnSelector(org), r)
  {
    var o := w.objects[u];
    if Nested(o) {
      FirstOwnerExists(ListedOrganizations(p, w), o);
      var org := FirstOwner(ListedOrganizations(p, w), o).value;
      assert Picked(o, o.Kind(), OwnSelector(org));
    } else {
      assert Picked(o, o.Kind(), p.selector);
    }
  }

  ghost predicate OwnNames(objects: map<nat, Object>, uids: set<nat>) {
    forall u, v | u in uids && v in uids && u in objects && v in objects && RefOf(objects[u]) == RefOf(objects[v]) :: u == v
  }

  ghost function Refs(objects: map<nat, Object>, uids: set<nat>): set<Ref> {
    set u | u in uids && u in objects :: RefOf(objects[u])
  }

  /** As many references as objects exactly if no two share one. */
  lemma {:induction false} CountRefs(objects: map<nat, Object>, uids: set<nat>)
    requires uids <= objects.Keys
    ensures |Refs(objects, uids)| <= |uids|
    ensures |Refs(objects, uids)| == |uids| <==> OwnNames(objects, uids)
  {
    if uids != {} {
      var x :| x in uids;
      var rest, r := uids - {x}, RefOf(objects[x]);
      CountRefs(objects, rest);
      assert Refs(objects, uids) == Refs(objects, rest) + {r};
      if r in Refs(objects, rest) {
        var v :| v in rest && RefOf(objects[v]) == r;
        assert Refs(objects, uids) == Refs(objects, rest);
      }
    }
  }

  lemma {:induction false} CountDistinct(refs: seq<Ref>)
    requires Distinct(refs)
    ensures |set r | r in refs| == |refs|
  {
    if refs != [] {
      assert Distinct(refs[1..]) && refs[0] !in refs[1..];
      CountDistinct(refs[1..]);
      assert (set r | r in refs) == {refs[0]} + set r | r in refs[1..];
    }
  }

  /** After a complete pass of a live instance the catalog holds exactly the references of the live listed
      resources, each once, in order of first occurrence, even when several organizations select the same
      one. A pass cut short leaves a prefix of it, and a deleting instance's an empty one, whatever the catalog
      was before; only a pass cut short before it starts on the resources leaves that. */
  lemma CatalogIsExact(p: Params, w: World, ticks: seq<Tick>, before: seq<Ref>)
    requires QuietTicks(ticks) && WF(w) && w.instance.Some? && !p.suspend
    ensures var r, full := Reconcile(p, State(w, ticks, before)), Deduplicated([], AllRefs(p, w));
            && Distinct(full) && (forall x :: x in full <==> x in AllRefs(p, w)) && InFirstOrder(full, AllRefs(p, w))
            && (forall x :: x in AllRefs(p, w) <==> exists u | u in LiveListed(p, w) :: RefOf(w.objects[u]) == x)
            && (if !Opening(p, State(w, ticks, before)).ok then !r.ok && r.s.catalog == before
                else if w.instance.value.deleting then r.s.catalog == []
                else r.s.catalog <= full && (r.ok ==> r.s.catalog == full))
  {
    DeduplicatedExactly(AllRefs(p, w));
    forall x {
      AllRefsExactly(p, w, x);
    }
    CatalogFollows(p, w, ticks, before);
  }

  /** The catalog has one entry for each live listed resource exactly if no two of one kind report the same
      name. */
  lemma OneEntryEachExactly(p: Params, w: World, ticks: seq<Tick>)
    requires QuietTicks(ticks) && WF(w) && w.instance.Some? && !w.instance.value.deleting && !p.suspend
    requires Reconcile(p, State(w, ticks, [])).ok
    ensures var catalog, uids := Reconcile(p, State(w, ticks, [])).s.catalog, LiveListed(p, w);
            && |catalog| <= |uids|
            && (|catalog| == |uids| <==>
                forall u, v | u in uids && v in uids && w.objects[u].Kind() == w.objects[v].Kind() && w.objects[u].GetName() == w.objects[v].GetName() :: u == v)
  {
    var catalog, uids := Reconcile(p, State(w, ticks, [])).s.catalog, LiveListed(p, w);
    CatalogIsExact(p, w, ticks, []);
    CountDistinct(catalog);
    CountRefs(w.objects, uids);
    assert (set r | r in catalog) == Refs(w.objects, uids);
  }

  /** Two users of different resource names whose specs give them the same name share an entry. */
  lemma NamesakesShareEntry(catalog: seq<Ref>, a: Object, b: Object)
    requires a.spec.UserSpec? && b.spec.UserSpec? && a.name != b.name
    requires a.spec.name == b.spec.name == "alice"
    ensures Catalogued(Catalogued(catalog, a), b) == Catalogued(catalog, a)
  {
  }
}
