/**
 The exact condition of the fixpoint. On a cluster that does not change, passes after a complete one write
 nothing, whatever order maps are encoded in, exactly if no client is selected by two of the listed organizations
 and no listed feature has two environments. If lists come in another order than before, one more condition is
 exact: every listed organization is left with the members it had.
 */
module Rewrites {
  import opened Wrappers
  import opened Documents
  import opened Selectors
  import opened Resources
  import opened FeatureMerge
  import opened FeatureTranslation
  import opened Upserts
  import opened Worlds
  import opened Pass
  import opened NoOrphans
  import opened NoStrands
  import opened Effects
  import opened Quiet
  import opened Target
  import opened Restart
  import opened Completion
  import opened Fixpoint
  import opened Declarations
  import KeyGenerator

  /** What an upsert that wrote nothing says about the object. */
  ghost predicate Agrees(docs: Docs, organization: string, members: seq<Member>, o: Object, mixed: bool) {
    match o.spec
    case UserSpec(_, _, _, _) => true
    case OrganizationSpec(_, _, _, _, _) =>
      var g := AsOrganization(Get(docs, o.Key()));
      members == [] || (g.Some? && g.value.members == Items(members))
    case FeatureSpec(_, _, _, _, _, _) => mixed ==> Single(o)
    case ClientSpec(_, _, _, _, _, _, _, _, _, _) =>
      var c := AsConnection(Get(docs, o.Key()));
      c.Some? && c.value.organization == organization
  }

  /** Writes are counted, and while none is added no document changes. */
  ghost predicate Counts(w: World, w': World) {
    w.clock <= w'.clock && (w'.clock == w.clock ==> w'.docs == w.docs)
  }

  /** Every encoding differs from the one it is compared with, where there are two. */
  predicate Mixed(ticks: seq<Tick>) {
    forall t | t in ticks :: t.entropy.reordered
  }

  lemma UnwrittenFeature(existing: Feature, o: Object, f: Feature, parse: Parse, now: Time)
    requires o.spec.FeatureSpec? && f.environmentSettings == Some(StoredSettings(o.spec.environments, parse))
    requires !UpsertFeature(Some(existing), f, now, true).wrote
    ensures Single(o)
  {
    assert MergedSettings(SettingsOf(existing), SettingsOf(f)).Keys == SettingsOf(f).Keys;
    assert |SettingsOf(MergedFeature(existing, f))| == |SettingsOf(f)|;
    SingleExactly(o, parse);
  }

  lemma UnwrittenConnection(existing: SDKConnection, c: SDKConnection, now: Time, key1: string, key2: string)
    requires !UpsertConnection(Some(existing), c, now, key1, key2).wrote
    ensures UpsertConnection(Some(existing), c, now, key1, key2).doc == existing && existing.organization == c.organization
  {
    assert MergedConnection(existing, c).organization == c.organization;
  }

  /** An upsert that writes nothing leaves the stored document, and shows that it agrees. */
  lemma UnwrittenAgrees(p: Params, secrets: Secrets, organization: string, members: seq<Member>, o: Object, docs: Docs, e: Entropy)
    ensures var r := Computed(p, secrets, organization, members, o, Get(docs, o.Key()), e);
            r.Some? && !r.value.wrote ==> Get(docs, o.Key()) == Some(r.value.doc) && Agrees(docs, organization, members, o, e.reordered)
  {
    var d := Get(docs, o.Key());
    var r := Computed(p, secrets, organization, members, o, d, e);
    if r.Some? && !r.value.wrote {
      match o.spec
      case UserSpec(_, _, _, _) =>
      case OrganizationSpec(_, _, _, _, _) =>
        var g := AsOrganization(d).value;
        assert MergedOrganization(g, OrganizationOf(o, members)) == g;
      case FeatureSpec(_, _, _, _, _, _) =>
        if e.reordered {
          UnwrittenFeature(AsFeature(d).value, o, Translated(o, OWNER, organization, p.parse).value, p.parse, e.now);
        }
      case ClientSpec(_, _, _, _, _, _, _, _, _, _) =>
        UnwrittenConnection(AsConnection(d).value, ConnectionOf(secrets, o, organization).value, e.now,
                            KeyGenerator.GenerateKey("", e.key1), KeyGenerator.GenerateKey("", e.key2));
    }
  }

  /** From s to r without touching an object, counting writes. */
  ghost predicate Settling(s: State, r: State) {
    && QuietTicks(r.ticks) && (Mixed(s.ticks) ==> Mixed(r.ticks))
    && r.w.objects == s.w.objects && Order(r.w) == Order(s.w) && Counts(s.w, r.w)
  }

  lemma PutCounts(p: Params, s: State, organization: string, members: seq<Member>, o: Object)
    requires QuietTicks(s.ticks)
    ensures var r := Put(p, s, organization, members, o);
            && Settling(s, r.s)
            && (r.ok && r.s.w.clock == s.w.clock ==> Agrees(r.s.w.docs, organization, members, o, Mixed(s.ticks)))
  {
    BeginIsQuiet(p, s);
    PutIsQuiet(p, s, organization, members, o);
    var b := Begin(p, s);
    if b.ok {
      var e := s.ticks[0].entropy;
      UnwrittenAgrees(p, s.w.secrets, organization, members, o, s.w.docs, e);
      var c := Computed(p, s.w.secrets, organization, members, o, Get(s.w.docs, o.Key()), e);
      if c.Some? {
        BeginIsQuiet(p, b.s.(w := Stored(b.s.w, o.Key(), c.value)));
        assert !c.value.wrote ==> s.w.docs[o.Key() := c.value.doc] == s.w.docs;
      }
    }
  }

  lemma {:induction false} GatherCounts(p: Params, s: State, bindings: seq<Binding>)
    requires QuietTicks(s.ticks)
    ensures Settling(s, Gather(p, s, bindings).out.s)
    decreases |bindings|
  {
    if bindings != [] {
      BeginIsQuiet(p, s);
      GatherCounts(p, Begin(p, s).s, bindings[1..]);
    }
  }

  lemma SettleOneCounts(p: Params, s: State, i: Instance, organization: string, o: Object)
    requires QuietTicks(s.ticks) && !Retiring(i, o)
    ensures var r := SettleOne(p, s, i, organization, o);
            && Settling(s, r.s)
            && (r.ok && r.s.w.clock == s.w.clock ==>
                  Agrees(r.s.w.docs, organization, MembersFor(s.w.objects, Order(s.w), o), o, Mixed(s.ticks)))
  {
    if o.spec.OrganizationSpec? {
      GatherIsQuiet(p, s, o.spec.bindings);
      GatherCounts(p, s, o.spec.bindings);
      var g := Gather(p, s, o.spec.bindings);
      PutCounts(p, g.out.s, organization, g.members, o);
    } else {
      PutCounts(p, s, organization, [], o);
    }
  }

  ghost predicate ItemsAgree(w: World, docs: Docs, organization: string, items: seq<Object>, mixed: bool) {
    forall o | o in items :: Agrees(docs, organization, MembersFor(w.objects, Order(w), o), o, mixed)
  }

  /** Settling the first and then the rest without a write: all agree with what is stored. */
  lemma HeadAgrees(s: State, a: State, r: State, organization: string, items: seq<Object>)
    requires items != [] && Settling(s, a) && Settling(a, r)
    requires a.w.clock == s.w.clock ==> Agrees(a.w.docs, organization, MembersFor(s.w.objects, Order(s.w), items[0]), items[0], Mixed(s.ticks))
    requires r.w.clock == a.w.clock ==> ItemsAgree(a.w, r.w.docs, organization, items[1..], Mixed(a.ticks))
    ensures Settling(s, r)
    ensures r.w.clock == s.w.clock ==> ItemsAgree(s.w, r.w.docs, organization, items, Mixed(s.ticks))
  {
    if r.w.clock == s.w.clock {
      forall o | o in items
        ensures Agrees(r.w.docs, organization, MembersFor(s.w.objects, Order(s.w), o), o, Mixed(s.ticks))
      {
        if o != items[0] {
          assert o in items[1..];
          assert Agrees(r.w.docs, organization, MembersFor(a.w.objects, Order(a.w), o), o, Mixed(a.ticks));
        }
      }
    }
  }

  lemma {:induction false} SettleAllCounts(p: Params, s: State, i: Instance, organization: string, items: seq<Object>)
    requires QuietTicks(s.ticks) && forall o | o in items :: !Retiring(i, o)
    ensures var r := SettleAll(p, s, i, organization, items);
            && Settling(s, r.s)
            && (r.ok && r.s.w.clock == s.w.clock ==> ItemsAgree(s.w, r.s.w.docs, organization, items, Mixed(s.ticks)))
    decreases |items|
  {
    if items != [] {
      SettleOneCounts(p, s, i, organization, items[0]);
      var a, r := SettleOne(p, s, i, organization, items[0]), SettleAll(p, s, i, organization, items);
      if a.ok {
        SettleAllCounts(p, a.s, i, organization, items[1..]);
        if r.ok {
          HeadAgrees(s, a.s, r.s, organization, items);
        }
      }
    }
  }

  /** Everything the selector picks agrees. */
  ghost predicate AllAgree(w: World, docs: Docs, kind: Kind, selector: Option<LabelSelector>, organization: string, mixed: bool) {
    forall u | u in w.objects && Picked(w.objects[u], kind, selector) ::
      Agrees(docs, organization, MembersFor(w.objects, Order(w), w.objects[u]), w.objects[u], mixed)
  }

  lemma {:induction false} MarkAllCounts(p: Params, s: State, items: seq<Object>)
    requires QuietTicks(s.ticks)
    ensures var r := MarkAll(p, s, items).s; Mixed(s.ticks) ==> Mixed(r.ticks)
    decreases |items|
  {
    if items != [] {
      BeginIsQuiet(p, s);
      var a := AddFinalizer(p, s, items[0]);
      if a.ok {
        MarkAllCounts(p, if items[0].deleting then a.s else a.s.(catalog := Catalogued(a.s.catalog, items[0])), items[1..]);
      }
    }
  }

  lemma ListingLives(w: World, kind: Kind, selector: Option<LabelSelector>)
    requires WF(w) && NothingDeleting(w)
    ensures forall o | o in List(w.objects, Order(w), kind, selector) :: o.Kind() == kind && !o.deleting
  {
    ListMembers(w, kind, selector);
  }

  lemma ItemsAgreeBefore(p: Params, w: World, m: World, docs: Docs, organization: string, items: seq<Object>, mixed: bool, mixed': bool)
    requires Isolates(p, w, m) && m.objects.Keys == w.objects.Keys && ItemsAgree(m, docs, organization, items, mixed) && (mixed' ==> mixed)
    ensures ItemsAgree(w, docs, organization, items, mixed')
  {
    assert SameUsers(w.objects, m.objects);
    forall o | o in items
      ensures Agrees(docs, organization, MembersFor(w.objects, Order(w), o), o, mixed')
    {
      MembersSame(p, w, m, o);
    }
  }

  lemma ProcessCounts(p: Params, s: State, i: Instance, organization: string, items: seq<Object>)
    requires QuietTicks(s.ticks) && !i.deleting && Current(p, s.w, items) && forall o | o in items :: !o.deleting
    ensures var r := Process(p, s, i, organization, items);
            && Counts(s.w, r.s.w) && (Mixed(s.ticks) ==> Mixed(r.s.ticks))
            && (r.ok && r.s.w.clock == s.w.clock ==>
                  ItemsAgree(s.w, r.s.w.docs, organization, items, Mixed(s.ticks)))
  {
    MarkAllIsQuiet(p, s, items);
    MarkAllCounts(p, s, items);
    var m := MarkAll(p, s, items);
    SettleAllCounts(p, m.s, i, organization, items);
    var r := Process(p, s, i, organization, items);
    if r.ok && r.s.w.clock == s.w.clock {
      ItemsAgreeBefore(p, s.w, m.s.w, r.s.w.docs, organization, items, Mixed(m.s.ticks), Mixed(s.ticks));
    }
  }

  lemma ListingAgrees(w: World, docs: Docs, kind: Kind, selector: Option<LabelSelector>, organization: string, mixed: bool)
    requires WF(w)
    requires ItemsAgree(w, docs, organization, List(w.objects, Order(w), kind, selector), mixed)
    ensures AllAgree(w, docs, kind, selector, organization, mixed)
  {
    ListMembers(w, kind, selector);
    forall u | u in w.objects && Picked(w.objects[u], kind, selector)
      ensures Agrees(docs, organization, MembersFor(w.objects, Order(w), w.objects[u]), w.objects[u], mixed)
    {
      assert w.objects[u] in List(w.objects, Order(w), kind, selector);
    }
  }

  /** From one state of a pass on a cluster in which nothing is being deleted to a later one. */
  ghost predicate Passes(p: Params, s: State, r: State) {
    && QuietTicks(r.ticks) && (Mixed(s.ticks) ==> Mixed(r.ticks))
    && WF(r.w) && Isolates(p, s.w, r.w) && NothingDeleting(r.w) && Counts(s.w, r.w)
  }

  lemma PassesTransitive(p: Params, s: State, t: State, r: State)
    requires Passes(p, s, t) && Passes(p, t, r)
    ensures Passes(p, s, r)
  {
    IsolatesTransitive(p, s.w, t.w, r.w);
  }

  /** One kind of a cluster in which nothing is being deleted. */
  lemma ReconcileKindCounts(p: Params, s: State, i: Instance, kind: Kind, selector: Option<LabelSelector>, organization: string)
    requires QuietTicks(s.ticks) && WF(s.w) && NothingDeleting(s.w) && !i.deleting
    ensures var r := ReconcileKind(p, s, i, kind, selector, organization);
            && Passes(p, s, r.s)
            && (r.ok && r.s.w.clock == s.w.clock ==> AllAgree(s.w, r.s.w.docs, kind, selector, organization, Mixed(s.ticks)))
  {
    ReconcileKindIsQuiet(p, s, i, kind, selector, organization);
    BeginIsQuiet(p, s);
    var b, items, r := Begin(p, s), List(s.w.objects, Order(s.w), kind, selector), ReconcileKind(p, s, i, kind, selector, organization);
    if b.ok && Convertible(selector) && Convertible(p.selector) {
      SnapshotIsSettleable(p, s.w, kind, selector);
      ListingLives(s.w, kind, selector);
      ProcessCounts(p, b.s, i, organization, items);
      if r.ok && r.s.w.clock == s.w.clock {
        ListingAgrees(s.w, r.s.w.docs, kind, selector, organization, Mixed(s.ticks));
      }
    }
  }

  /** What agrees later agreed before: objects differ in finalizers only. */
  lemma AllAgreeBefore(p: Params, w: World, w': World, docs: Docs, kind: Kind, selector: Option<LabelSelector>, organization: string, mixed: bool)
    requires Isolates(p, w, w') && NothingDeleting(w) && AllAgree(w', docs, kind, selector, organization, mixed)
    ensures AllAgree(w, docs, kind, selector, organization, mixed)
  {
    assert SameUsers(w.objects, w'.objects);
    forall u | u in w.objects && Picked(w.objects[u], kind, selector)
      ensures Agrees(docs, organization, MembersFor(w.objects, Order(w), w.objects[u]), w.objects[u], mixed)
    {
      var o, o' := w.objects[u], w'.objects[u];
      assert o' == o.(finalizers := o'.finalizers) && o'.Key() == o.Key() && Picked(o', kind, selector);
      MembersSame(p, w, w', o);
      assert Agrees(docs, organization, MembersFor(w'.objects, Order(w'), o'), o', mixed);
    }
  }

  ghost predicate OrganizationAgrees(w: World, docs: Docs, org: Object, mixed: bool) {
    && AllAgree(w, docs, FeatureKind, OwnSelector(org), org.Id(), mixed)
    && AllAgree(w, docs, ClientKind, OwnSelector(org), org.Id(), mixed)
  }

  lemma OrganizationCounts(p: Params, s: State, i: Instance, org: Object)
    requires QuietTicks(s.ticks) && WF(s.w) && NothingDeleting(s.w) && !i.deleting && org.spec.OrganizationSpec?
    ensures var r := ReconcileOrganization(p, s, i, org);
            Passes(p, s, r.s) && (r.ok && r.s.w.clock == s.w.clock ==> OrganizationAgrees(s.w, r.s.w.docs, org, Mixed(s.ticks)))
  {
    var selector, id := org.spec.resourceSelector, org.Id();
    ReconcileKindCounts(p, s, i, FeatureKind, selector, id);
    var f := ReconcileKind(p, s, i, FeatureKind, selector, id);
    if f.ok {
      ReconcileKindCounts(p, f.s, i, ClientKind, selector, id);
      var c := ReconcileKind(p, f.s, i, ClientKind, selector, id);
      PassesTransitive(p, s, f.s, c.s);
      if c.ok && c.s.w.clock == s.w.clock {
        AllAgreeMixed(f.s.w, c.s.w.docs, ClientKind, selector, id, Mixed(f.s.ticks), Mixed(s.ticks));
        AllAgreeBefore(p, s.w, f.s.w, c.s.w.docs, ClientKind, selector, id, Mixed(s.ticks));
      }
    }
  }

  lemma AllAgreeMixed(w: World, docs: Docs, kind: Kind, selector: Option<LabelSelector>, organization: string, mixed: bool, mixed': bool)
    requires AllAgree(w, docs, kind, selector, organization, mixed) && (mixed' ==> mixed)
    ensures AllAgree(w, docs, kind, selector, organization, mixed')
  {
  }

  lemma {:induction false} ReconcileOwnedCounts(p: Params, s: State, i: Instance, orgs: seq<Object>)
    requires QuietTicks(s.ticks) && WF(s.w) && NothingDeleting(s.w) && !i.deleting && forall o | o in orgs :: o.spec.OrganizationSpec?
    ensures var r := ReconcileOwned(p, s, i, orgs);
            && Passes(p, s, r.s)
            && (r.ok && r.s.w.clock == s.w.clock ==> forall org | org in orgs :: OrganizationAgrees(s.w, r.s.w.docs, org, Mixed(s.ticks)))
    decreases |orgs|
  {
    if orgs != [] {
      OrganizationCounts(p, s, i, orgs[0]);
      var c, r := ReconcileOrganization(p, s, i, orgs[0]), ReconcileOwned(p, s, i, orgs);
      if c.ok {
        ReconcileOwnedCounts(p, c.s, i, orgs[1..]);
        PassesTransitive(p, s, c.s, r.s);
        forall org | org in orgs && r.ok && r.s.w.clock == s.w.clock
          ensures OrganizationAgrees(s.w, r.s.w.docs, org, Mixed(s.ticks))
        {
          if org != orgs[0] {
            assert OrganizationAgrees(c.s.w, r.s.w.docs, org, Mixed(c.s.ticks));
            OrganizationAgreesBefore(p, s.w, c.s.w, r.s.w.docs, org, Mixed(c.s.ticks), Mixed(s.ticks));
          }
        }
      }
    }
  }

  lemma OrganizationAgreesBefore(p: Params, w: World, w': World, docs: Docs, org: Object, mixed: bool, mixed': bool)
    requires Isolates(p, w, w') && NothingDeleting(w) && OrganizationAgrees(w', docs, org, mixed) && (mixed' ==> mixed)
    ensures OrganizationAgrees(w, docs, org, mixed')
  {
    AllAgreeMixed(w', docs, FeatureKind, OwnSelector(org), org.Id(), mixed, mixed');
    AllAgreeMixed(w', docs, ClientKind, OwnSelector(org), org.Id(), mixed, mixed');
    AllAgreeBefore(p, w, w', docs, FeatureKind, OwnSelector(org), org.Id(), mixed');
    AllAgreeBefore(p, w, w', docs, ClientKind, OwnSelector(org), org.Id(), mixed');
  }

  /** Everything a pass lists agrees. */
  ghost predicate PassAgrees(p: Params, w: World, docs: Docs, mixed: bool) {
    && AllAgree(w, docs, OrganizationKind, p.selector, "", mixed)
    && forall org | org in ListedOrganizations(p, w) :: OrganizationAgrees(w, docs, org, mixed)
  }

  lemma ReconcileAllCounts(p: Params, s: State, i: Instance)
    requires QuietTicks(s.ticks) && WF(s.w) && NothingDeleting(s.w) && !i.deleting
    ensures var r := ReconcileAll(p, s, i);
            && Isolates(p, s.w, r.s.w) && Counts(s.w, r.s.w)
            && (r.ok && r.s.w.clock == s.w.clock ==> PassAgrees(p, s.w, r.s.w.docs, Mixed(s.ticks)))
  {
    var s0 := s.(catalog := []);
    ReconcileKindCounts(p, s0, i, UserKind, p.selector, "");
    KindStep(p, s0, i, UserKind, p.selector, "");
    var u := ReconcileKind(p, s0, i, UserKind, p.selector, "");
    OrganizationsListed(p, s.w, u.s.w, i, u.ok);
    if u.ok {
      LaterKindsCount(p, s.w, u.s, i, Mixed(s.ticks));
      PassesTransitive(p, s0, u.s, ReconcileAll(p, s, i).s);
    }
  }

  /** The part of a pass after the users. */
  lemma LaterKindsCount(p: Params, w: World, s: State, i: Instance, mixed: bool)
    requires QuietTicks(s.ticks) && WF(w) && WF(s.w) && NothingDeleting(w) && NothingDeleting(s.w) && !i.deleting && Isolates(p, w, s.w)
    requires ListedOrganizations(p, s.w) == ListedOrganizations(p, w) && (mixed ==> Mixed(s.ticks))
    ensures var o := ReconcileKind(p, s, i, OrganizationKind, p.selector, "");
            var orgs := ListedOrganizations(p, w);
            && Snapshot(p, s, OrganizationKind, p.selector) == orgs && (forall x | x in orgs :: x.spec.OrganizationSpec?)
            && var r := if o.ok then ReconcileOwned(p, o.s, i, orgs) else o;
               && Passes(p, s, r.s)
               && (r.ok && r.s.w.clock == s.w.clock ==> PassAgrees(p, w, r.s.w.docs, mixed))
  {
    BeginIsQuiet(p, s);
    SnapshotKinds(p, s, p.selector);
    ReconcileKindCounts(p, s, i, OrganizationKind, p.selector, "");
    var o, orgs := ReconcileKind(p, s, i, OrganizationKind, p.selector, ""), ListedOrganizations(p, w);
    if o.ok {
      ReconcileOwnedCounts(p, o.s, i, orgs);
      var r := ReconcileOwned(p, o.s, i, orgs);
      PassesTransitive(p, s, o.s, r.s);
      IsolatesTransitive(p, w, s.w, o.s.w);
      if r.ok && r.s.w.clock == s.w.clock {
        AllAgreeMixed(s.w, r.s.w.docs, OrganizationKind, p.selector, "", Mixed(s.ticks), mixed);
        AllAgreeBefore(p, w, s.w, r.s.w.docs, OrganizationKind, p.selector, "", mixed);
        forall org | org in orgs
          ensures OrganizationAgrees(w, r.s.w.docs, org, mixed)
        {
          OrganizationAgreesBefore(p, w, o.s.w, r.s.w.docs, org, Mixed(o.s.ticks), mixed);
        }
      }
    }
  }

  /** A complete pass that writes nothing: everything it lists agrees. */
  lemma UnwrittenPassAgrees(p: Params, w: World, ticks: seq<Tick>)
    requires QuietTicks(ticks) && WF(w) && NothingDeleting(w) && w.instance.Some? && !w.instance.value.deleting && !p.suspend
    requires var r := Reconcile(p, State(w, ticks, [])); r.ok && r.s.w.clock == w.clock
    ensures PassAgrees(p, w, w.docs, Mixed(ticks))
  {
    var s := State(w, ticks, []);
    PassUnfolds(p, s);
    var m := Opening(p, s).s;
    assert Mixed(ticks) ==> Mixed(m.ticks);
    ReconcileAllCounts(p, m, w.instance.value);
    AgreesAside(p, w, m.w, Mixed(m.ticks), Mixed(ticks));
  }

  lemma AgreesAside(p: Params, w: World, m: World, mixed: bool, mixed': bool)
    requires m == w.(instance := m.instance) && PassAgrees(p, m, w.docs, mixed) && (mixed' ==> mixed)
    ensures PassAgrees(p, w, w.docs, mixed')
  {
    AllAgreeAside(w, m, OrganizationKind, p.selector, "", mixed, mixed');
    forall org | org in ListedOrganizations(p, w)
      ensures OrganizationAgrees(w, w.docs, org, mixed')
    {
      assert OrganizationAgrees(m, w.docs, org, mixed);
      AllAgreeAside(w, m, FeatureKind, OwnSelector(org), org.Id(), mixed, mixed');
      AllAgreeAside(w, m, ClientKind, OwnSelector(org), org.Id(), mixed, mixed');
    }
  }

  lemma AllAgreeAside(w: World, m: World, kind: Kind, selector: Option<LabelSelector>, organization: string, mixed: bool, mixed': bool)
    requires m == w.(instance := m.instance) && AllAgree(m, w.docs, kind, selector, organization, mixed) && (mixed' ==> mixed)
    ensures AllAgree(w, w.docs, kind, selector, organization, mixed')
  {
    forall u | u in w.objects && Picked(w.objects[u], kind, selector)
      ensures Agrees(w.docs, organization, MembersFor(w.objects, Order(w), w.objects[u]), w.objects[u], mixed')
    {
      assert Agrees(w.docs, organization, MembersFor(m.objects, Order(m), m.objects[u]), m.objects[u], mixed);
    }
  }

  /** Two organizations that select a client both have it only if they are one. */
  lemma AgreementMeansOneOwner(p: Params, w: World, mixed: bool)
    requires WF(w) && PassAgrees(p, w, w.docs, mixed)
    ensures OneOwner(p, w) && (mixed ==> OneEnvironment(p, w))
  {
    ListMembers(w, OrganizationKind, p.selector);
    forall u, v, v' | u in w.objects && v in w.objects && v' in w.objects && w.objects[u].spec.ClientSpec?
                      && Owner(p, w.objects[v], w.objects[u]) && Owner(p, w.objects[v'], w.objects[u])
      ensures v == v'
    {
      OwnedAgrees(p, w, mixed, u, v);
      OwnedAgrees(p, w, mixed, u, v');
      assert w.objects[v].Key() == w.objects[v'].Key();
    }
    forall u, v | u in w.objects && v in w.objects && Owner(p, w.objects[v], w.objects[u]) && mixed
      ensures Single(w.objects[u])
    {
      if w.objects[u].spec.FeatureSpec? {
        OwnedAgrees(p, w, mixed, u, v);
      }
    }
  }

  lemma OwnedAgrees(p: Params, w: World, mixed: bool, u: nat, v: nat)
    requires WF(w) && PassAgrees(p, w, w.docs, mixed)
    requires u in w.objects && v in w.objects && Nested(w.objects[u]) && Owner(p, w.objects[v], w.objects[u])
    ensures Agrees(w.docs, w.objects[v].Id(), [], w.objects[u], mixed)
  {
    var org, o := w.objects[v], w.objects[u];
    ListMembers(w, OrganizationKind, p.selector);
    assert org in ListedOrganizations(p, w) && OrganizationAgrees(w, w.docs, org, mixed);
    assert Picked(o, o.Kind(), OwnSelector(org)) && MembersFor(w.objects, Order(w), o) == [];
  }

  lemma UnwrittenMeansOneOwner(p: Params, w: World, ticks: seq<Tick>)
    requires QuietTicks(ticks) && WF(w) && NothingDeleting(w) && w.instance.Some? && !w.instance.value.deleting && !p.suspend
    requires var r := Reconcile(p, State(w, ticks, [])); r.ok && r.s.w.clock == w.clock
    ensures OneOwner(p, w) && (Mixed(ticks) ==> OneEnvironment(p, w))
  {
    UnwrittenPassAgrees(p, w, ticks);
    AgreementMeansOneOwner(p, w, Mixed(ticks));
  }

  lemma OwnerSame(p: Params, w: World, x: World, u: nat, v: nat)
    requires Isolates(p, w, x) && u in x.objects && v in x.objects
    ensures Owner(p, w.objects[v], w.objects[u]) <==> Owner(p, x.objects[v], x.objects[u])
    ensures Single(w.objects[u]) <==> Single(x.objects[u])
    ensures w.objects[u].spec == x.objects[u].spec
  {
    assert Same(p, w.objects[u], x.objects[u]) && Same(p, w.objects[v], x.objects[v]);
  }

  lemma OneOwnerBefore(p: Params, w: World, x: World)
    requires NothingDeleting(w) && Isolates(p, w, x) && OneOwner(p, x)
    ensures OneOwner(p, w)
  {
    forall u, v, v' | u in w.objects && v in w.objects && v' in w.objects && w.objects[u].spec.ClientSpec?
                      && Owner(p, w.objects[v], w.objects[u]) && Owner(p, w.objects[v'], w.objects[u])
      ensures v == v'
    {
      OwnerSame(p, w, x, u, v);
      OwnerSame(p, w, x, u, v');
    }
  }

  lemma OneEnvironmentBefore(p: Params, w: World, x: World)
    requires NothingDeleting(w) && Isolates(p, w, x) && OneEnvironment(p, x)
    ensures OneEnvironment(p, w)
  {
    forall u, v | u in w.objects && v in w.objects && Owner(p, w.objects[v], w.objects[u])
      ensures Single(w.objects[u])
    {
      OwnerSame(p, w, x, u, v);
    }
  }

  /** After a complete pass a second one on the unchanged cluster writes nothing exactly if no client is
      selected by two listed organizations, provided encoding orders cannot matter; and then it changes no
      document and no cached payload. */
  lemma SecondPassWritesNothingExactly(p: Params, w: World, first: seq<Tick>, second: seq<Tick>)
    requires WF(w) && NothingDeleting(w) && !p.suspend && w.instance.Some? && !w.instance.value.deleting
    requires QuietTicks(first) && QuietTicks(second) && Orderly(p, w, second)
    requires var r := Reconcile(p, State(w, first, [])); r.ok && Reconcile(p, State(r.s.w, second, [])).ok
    ensures var x := Reconcile(p, State(w, first, [])).s.w;
            var y := Reconcile(p, State(x, second, [])).s.w;
            && (y.clock == x.clock <==> OneOwner(p, w))
            && (y.clock == x.clock ==> y.docs == x.docs && y.payloads == x.payloads)
  {
    QuietPass(p, w, first);
    var x := Reconcile(p, State(w, first, [])).s.w;
    NothingGoes(p, w, x);
    if OneOwner(p, w) {
      CompletePassSettles(p, w, x);
      OrderlyAfter(p, w, x, second);
      IdlePass(p, x, second);
    } else if Reconcile(p, State(x, second, [])).s.w.clock == x.clock {
      UnwrittenMeansOneOwner(p, x, second);
      OneOwnerBefore(p, w, x);
    }
  }

  /** In the new order every listed organization has the members it had. */
  ghost predicate SameMembers(p: Params, w: World, arrangement: seq<nat>) {
    forall u | u in w.objects && Picked(w.objects[u], OrganizationKind, p.selector) ::
      MembersFor(w.objects, Order(w.(arrangement := arrangement)), w.objects[u]) == MembersFor(w.objects, Order(w), w.objects[u])
  }

  lemma SameMembersLater(p: Params, w: World, x: World, arrangement: seq<nat>)
    requires WF(w) && NothingDeleting(w) && Isolates(p, w, x)
    ensures SameMembers(p, x, arrangement) <==> SameMembers(p, w, arrangement)
  {
    var order, order' := Order(w), Order(w.(arrangement := arrangement));
    assert Order(x) == order && Order(x.(arrangement := arrangement)) == order';
    forall u | u in w.objects
      ensures MembersFor(x.objects, order, x.objects[u]) == MembersFor(w.objects, order, w.objects[u])
      ensures MembersFor(x.objects, order', x.objects[u]) == MembersFor(w.objects, order', w.objects[u])
      ensures Picked(x.objects[u], OrganizationKind, p.selector) <==> Picked(w.objects[u], OrganizationKind, p.selector)
    {
      var o := w.objects[u];
      assert x.objects[u] == o.(finalizers := x.objects[u].finalizers) && SameUsers(x.objects, w.objects);
      if o.spec.OrganizationSpec? {
        AssignedSame(x.objects, w.objects, order, o.spec.bindings);
        AssignedSame(x.objects, w.objects, order', o.spec.bindings);
      }
    }
  }

  /** The order decides nothing about who is a member. */
  lemma SameMembershipInAnyOrder(w: World, arrangement: seq<nat>, o: Object, m: Member)
    ensures m in MembersFor(w.objects, Order(w.(arrangement := arrangement)), o) <==> m in MembersFor(w.objects, Order(w), o)
  {
    OrderIsPermutation(w);
    OrderIsPermutation(w.(arrangement := arrangement));
    SameMembershipInSameUids(w.objects, Order(w), Order(w.(arrangement := arrangement)), o, m);
  }

  lemma SameMembershipInSameUids(objects: map<nat, Object>, order: seq<nat>, order': seq<nat>, o: Object, m: Member)
    requires forall u: nat :: u in order <==> u in order'
    ensures m in MembersFor(objects, order', o) <==> m in MembersFor(objects, order, o)
  {
    if o.spec.OrganizationSpec? {
      AssignedExactly(objects, order, o.spec.bindings, m);
      AssignedExactly(objects, order', o.spec.bindings, m);
      assert forall b :: Bound(objects, order', b, m) <==> Bound(objects, order, b, m);
    }
  }

  lemma NoMembersInAnyOrder(w: World, arrangement: seq<nat>, o: Object)
    requires MembersFor(w.objects, Order(w.(arrangement := arrangement)), o) == []
    ensures MembersFor(w.objects, Order(w), o) == []
  {
    var members := MembersFor(w.objects, Order(w), o);
    if members != [] {
      SameMembershipInAnyOrder(w, arrangement, o, members[0]);
      assert false;
    }
  }

  /** The stored members of an inert organization are those found, if any were. */
  lemma InertMembers(p: Params, x: World, o: Object)
    requires o.spec.OrganizationSpec? && Inert(p, x, "", o)
    ensures var m := MembersFor(x.objects, Order(x), o);
            m != [] ==> AsOrganization(Get(x.docs, o.Key())).Some? && AsOrganization(Get(x.docs, o.Key())).value.members == Items(m)
  {
  }

  /** Rearranged, an inert cluster whose organizations keep their members is inert. */
  lemma RearrangedSettles(p: Params, x: World, arrangement: seq<nat>)
    requires Settled(p, x) && SameMembers(p, x, arrangement)
    ensures Settled(p, x.(arrangement := arrangement))
  {
    var x' := x.(arrangement := arrangement);
    forall u | u in x'.objects && !Nested(x'.objects[u]) && Selects(p.selector, x'.objects[u].labels)
      ensures Inert(p, x', "", x'.objects[u])
    {
      assert Inert(p, x, "", x.objects[u]);
      assert x.objects[u].spec.OrganizationSpec? ==> Picked(x.objects[u], OrganizationKind, p.selector);
    }
    forall u, v | u in x'.objects && v in x'.objects && Nested(x'.objects[u]) && Owner(p, x'.objects[v], x'.objects[u])
      ensures Inert(p, x', x'.objects[v].Id(), x'.objects[u])
    {
      assert Inert(p, x, x.objects[v].Id(), x.objects[u]);
    }
  }

  lemma SoundRearranged(p: Params, x: World, arrangement: seq<nat>, i: Instance)
    requires WF(x) && Sound(p, x, i)
    ensures Sound(p, x.(arrangement := arrangement), i)
  {
    var x' := x.(arrangement := arrangement);
    ListMembers(x, OrganizationKind, p.selector);
    ListMembers(x', OrganizationKind, p.selector);
    forall org | org in ListedOrganizations(p, x')
      ensures OrganizationFit(x', i, org)
    {
      assert org in ListedOrganizations(p, x) && OrganizationFit(x, i, org);
    }
  }

  /** So many calls that nobody disturbs, encoding maps in another order each time. */
  function Stirred(n: nat): (ticks: seq<Tick>)
    ensures |ticks| == n && Calm(ticks) && Mixed(ticks)
  {
    seq(n, _ => Tick([], false, STILL.(reordered := true)))
  }

  /** What two passes that agree say about the members in between. */
  lemma AgreementMeansMembers(p: Params, x: World, arrangement: seq<nat>, o: Object)
    requires o.spec.OrganizationSpec? && Inert(p, x, "", o)
    requires Agrees(x.docs, "", MembersFor(x.objects, Order(x.(arrangement := arrangement)), o), o, true)
    ensures MembersFor(x.objects, Order(x.(arrangement := arrangement)), o) == MembersFor(x.objects, Order(x), o)
  {
    var x' := x.(arrangement := arrangement);
    InertMembers(p, x, o);
    if MembersFor(x.objects, Order(x'), o) == [] {
      NoMembersInAnyOrder(x, arrangement, o);
    } else if MembersFor(x.objects, Order(x), o) == [] {
      assert x'.(arrangement := x.arrangement) == x;
      NoMembersInAnyOrder(x', x.arrangement, o);
    }
  }

  lemma AgreementMeansSameMembers(p: Params, w: World, x: World, arrangement: seq<nat>)
    requires WF(w) && NothingDeleting(w) && Passed(p, w, x, true) && !w.instance.value.deleting
    requires PassAgrees(p, x.(arrangement := arrangement), x.docs, true)
    ensures SameMembers(p, x, arrangement)
  {
    var x' := x.(arrangement := arrangement);
    forall u | u in x.objects && Picked(x.objects[u], OrganizationKind, p.selector)
      ensures MembersFor(x.objects, Order(x'), x.objects[u]) == MembersFor(x.objects, Order(x), x.objects[u])
    {
      DirectSettles(p, w, x, u);
      assert Agrees(x.docs, "", MembersFor(x'.objects, Order(x'), x'.objects[u]), x'.objects[u], true);
      AgreementMeansMembers(p, x, arrangement, x.objects[u]);
    }
  }

  lemma OrderlyPassesWriteNothing(p: Params, w: World, x: World, arrangement: seq<nat>, second: seq<Tick>)
    requires WF(w) && NothingDeleting(w) && Passed(p, w, x, true) && !w.instance.value.deleting
    requires OneOwner(p, w) && OneEnvironment(p, w) && SameMembers(p, w, arrangement) && QuietTicks(second)
    ensures var x' := x.(arrangement := arrangement); Reconcile(p, State(x', second, [])).s.w.clock == x'.clock
  {
    var x' := x.(arrangement := arrangement);
    CompletePassSettles(p, w, x);
    SameMembersLater(p, w, x, arrangement);
    RearrangedSettles(p, x, arrangement);
    OrderlyAfter(p, w, x, second);
    assert OneEnvironment(p, x') by {
      OneEnvironmentAfter(p, w, x);
    }
    IdlePass(p, x', second);
  }

  lemma OneEnvironmentAfter(p: Params, w: World, x: World)
    requires Isolates(p, w, x) && OneEnvironment(p, w)
    ensures OneEnvironment(p, x)
  {
    forall u, v | u in x.objects && v in x.objects && Owner(p, x.objects[v], x.objects[u])
      ensures Single(x.objects[u])
    {
      OwnerSame(p, w, x, u, v);
    }
  }

  lemma OnceAgreed(p: Params, w: World, x: World, x': World)
    requires WF(w) && NothingDeleting(w) && Isolates(p, w, x) && x' == x.(arrangement := x'.arrangement) && OneOwner(p, x') && OneEnvironment(p, x')
    ensures OneOwner(p, w) && OneEnvironment(p, w)
  {
    assert OneOwner(p, x) && OneEnvironment(p, x);
    OneOwnerBefore(p, w, x);
    OneEnvironmentBefore(p, w, x);
  }

  lemma RearrangedAgrees(p: Params, w: World, x: World, arrangement: seq<nat>, second: seq<Tick>)
    requires WF(w) && NothingDeleting(w) && Passed(p, w, x, true) && !w.instance.value.deleting && !p.suspend
    requires QuietTicks(second) && Mixed(second)
    requires var r := Reconcile(p, State(x.(arrangement := arrangement), second, [])); r.ok && r.s.w.clock == x.clock
    ensures WF(x.(arrangement := arrangement)) && PassAgrees(p, x.(arrangement := arrangement), x.docs, true)
  {
    NothingGoes(p, w, x);
    UnwrittenPassAgrees(p, x.(arrangement := arrangement), second);
  }

  lemma WritingNothingMeans(p: Params, w: World, x: World, arrangement: seq<nat>, second: seq<Tick>)
    requires WF(w) && NothingDeleting(w) && Passed(p, w, x, true) && !w.instance.value.deleting && !p.suspend
    requires QuietTicks(second) && Mixed(second)
    requires var r := Reconcile(p, State(x.(arrangement := arrangement), second, [])); r.ok && r.s.w.clock == x.clock
    ensures OneOwner(p, w) && OneEnvironment(p, w) && SameMembers(p, w, arrangement)
  {
    var x' := x.(arrangement := arrangement);
    RearrangedAgrees(p, w, x, arrangement, second);
    AgreementMeansOneOwner(p, x', true);
    OnceAgreed(p, w, x, x');
    AgreementMeansSameMembers(p, w, x, arrangement);
    SameMembersLater(p, w, x, arrangement);
  }

  /** After a complete pass no further one writes anything, complete or cut short, in whatever order maps are
      encoded and with the lists in a given order from then on, exactly if no client has two owners, no listed
      feature has two environments and the members of the listed organizations come in the order they came in. */
  lemma FurtherPassesWriteNothingExactly(p: Params, w: World, first: seq<Tick>, arrangement: seq<nat>)
    requires WF(w) && NothingDeleting(w) && !p.suspend && w.instance.Some? && !w.instance.value.deleting
    requires QuietTicks(first) && Reconcile(p, State(w, first, [])).ok
    ensures var x := Reconcile(p, State(w, first, [])).s.w.(arrangement := arrangement);
            (forall second | QuietTicks(second) :: Reconcile(p, State(x, second, [])).s.w.clock == x.clock) <==>
            OneOwner(p, w) && OneEnvironment(p, w) && SameMembers(p, w, arrangement)
  {
    QuietPass(p, w, first);
    var x := Reconcile(p, State(w, first, [])).s.w;
    var x' := x.(arrangement := arrangement);
    if OneOwner(p, w) && OneEnvironment(p, w) && SameMembers(p, w, arrangement) {
      forall second | QuietTicks(second)
        ensures Reconcile(p, State(x', second, [])).s.w.clock == x'.clock
      {
        OrderlyPassesWriteNothing(p, w, x, arrangement, second);
      }
    }
    if forall second | QuietTicks(second) :: Reconcile(p, State(x', second, [])).s.w.clock == x'.clock {
      var second := Stirred(PassCalls(p, x'));
      StirredCompletes(p, w, x, arrangement, first);
      WritingNothingMeans(p, w, x, arrangement, second);
    }
  }

  lemma StirredCompletes(p: Params, w: World, x: World, arrangement: seq<nat>, first: seq<Tick>)
    requires WF(w) && NothingDeleting(w) && !p.suspend && w.instance.Some? && !w.instance.value.deleting
    requires QuietTicks(first) && Reconcile(p, State(w, first, [])).ok && x == Reconcile(p, State(w, first, [])).s.w
    ensures var x' := x.(arrangement := arrangement); Reconcile(p, State(x', Stirred(PassCalls(p, x')), [])).ok
  {
    var x' := x.(arrangement := arrangement);
    QuietPass(p, w, first);
    PassCompletesExactly(p, w, first);
    SoundLater(p, w, x, w.instance.value, x.instance.value);
    SoundRearranged(p, x, arrangement, x.instance.value);
    PassCompletesExactly(p, x', Stirred(PassCalls(p, x')));
  }
}
