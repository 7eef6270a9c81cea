/**
 After a complete pass with nothing being deleted, further passes with nobody else acting change no
 document, not even a date, and leave the payload cache alone. Each client must be selected by one
 organization, and equal features must encode alike.
 */
module Fixpoint {
  import opened Wrappers
  import opened Documents
  import opened Selectors
  import opened Resources
  import opened FeatureMerge
  import opened FeatureTranslation
  import opened Upserts
  import opened Worlds
  import opened Pass
  import opened NoOrphans
  import opened NoStrands
  import opened Effects
  import opened Quiet
  import opened Target
  import opened Restart
  import FinalizerNames
  import KeyGenerator

  /** No encoding visits a map in another order than the one it is compared with. */
  predicate Canonical(ticks: seq<Tick>) {
    forall t | t in ticks :: !t.entropy.reordered
  }

  /** At most one environment, so there is one way to encode them. */
  predicate Single(o: Object) {
    o.spec.FeatureSpec? ==> forall a, b | a in o.spec.environments && b in o.spec.environments :: a.name == b.name
  }

  ghost predicate OneEnvironment(p: Params, w: World) {
    forall u, v | u in w.objects && v in w.objects && Owner(p, w.objects[v], w.objects[u]) :: Single(w.objects[u])
  }

  /** Encoding orders cannot matter. */
  ghost predicate Orderly(p: Params, w: World, ticks: seq<Tick>) {
    Canonical(ticks) || OneEnvironment(p, w)
  }

  lemma SingleExactly(o: Object, parse: Parse)
    requires o.spec.FeatureSpec?
    ensures |StoredSettings(o.spec.environments, parse)| < 2 <==> Single(o)
  {
    var settings := StoredSettings(o.spec.environments, parse);
    StoredNames(o.spec.environments, parse);
    if Single(o) {
      if e :| e in o.spec.environments {
        assert settings.Keys == {e.name};
      } else {
        assert settings.Keys == {};
      }
    } else {
      var a, b :| a in o.spec.environments && b in o.spec.environments && a.name != b.name;
      assert {a.name, b.name} <= settings.Keys;
      TwoInside({a.name, b.name}, settings.Keys);
    }
  }

  lemma TwoInside(a: set<string>, b: set<string>)
    requires a <= b
    ensures |a| <= |b|
  {
    assert b == a + (b - a);
  }

  /** The stored document is what merging the object into it gives. */
  ghost predicate Inert(p: Params, w: World, organization: string, o: Object) {
    var d := Look(w.docs, o.Key());
    d.Some? && Mergeable(w.secrets, o) && Merge(p, w.secrets, organization, MembersFor(w.objects, Order(w), o), o, d) == d
  }

  lemma InertUser(p: Params, secrets: Secrets, organization: string, members: seq<Member>, o: Object, d: Doc, e: Entropy)
    requires Mergeable(secrets, o) && (o.spec.UserSpec? || o.spec.OrganizationSpec?)
    requires Merge(p, secrets, organization, members, o, Some(Erased(d))) == Some(Erased(d))
    ensures Computed(p, secrets, organization, members, o, Some(d), e) == Some(Upserted(d, false))
  {
  }

  lemma InertClient(p: Params, secrets: Secrets, organization: string, members: seq<Member>, o: Object, d: Doc, e: Entropy)
    requires Mergeable(secrets, o) && o.spec.ClientSpec?
    requires Merge(p, secrets, organization, members, o, Some(Erased(d))) == Some(Erased(d))
    ensures Computed(p, secrets, organization, members, o, Some(d), e) == Some(Upserted(d, false))
  {
    var c := ConnectionOf(secrets, o, organization).value;
    InertConnection(d, c, e.now, KeyGenerator.GenerateKey("", e.key1), KeyGenerator.GenerateKey("", e.key2),
                    KeyGenerator.GenerateKey("", STILL.key1), KeyGenerator.GenerateKey("", STILL.key2));
  }

  lemma InertConnection(d: Doc, c: SDKConnection, now: Time, key1: string, key2: string, key1': string, key2': string)
    requires Erased(ConnectionDoc(UpsertConnection(AsConnection(Some(Erased(d))), c, 0, key1', key2').doc)) == Erased(d)
    ensures d.ConnectionDoc? && UpsertConnection(Some(d.connection), c, now, key1, key2) == Upserted(d.connection, false)
  {
  }

  /** What an inert upsert computes is the stored document itself, unwritten. */
  lemma InertComputes(p: Params, secrets: Secrets, organization: string, members: seq<Member>, o: Object, d: Doc, e: Entropy)
    requires Mergeable(secrets, o) && (!e.reordered || Single(o))
    requires Merge(p, secrets, organization, members, o, Some(Erased(d))) == Some(Erased(d))
    ensures Computed(p, secrets, organization, members, o, Some(d), e) == Some(Upserted(d, false))
  {
    if o.spec.FeatureSpec? {
      SingleExactly(o, p.parse);
      InertFeature(d, Translated(o, OWNER, organization, p.parse).value, e.now, e.reordered);
    } else if o.spec.ClientSpec? {
      InertClient(p, secrets, organization, members, o, d, e);
    } else {
      InertUser(p, secrets, organization, members, o, d, e);
    }
  }

  lemma InertFeature(d: Doc, f: Feature, now: Time, reordered: bool)
    requires Erased(FeatureDoc(UpsertFeature(AsFeature(Some(Erased(d))), f, 0, false).doc)) == Erased(d)
    requires !reordered || |SettingsOf(f)| < 2
    ensures d.FeatureDoc? && UpsertFeature(Some(d.feature), f, now, reordered) == Upserted(d.feature, false)
  {
    assert MergedSettings(SettingsOf(d.feature), SettingsOf(f)).Keys == SettingsOf(f).Keys;
    assert |SettingsOf(MergedFeature(d.feature, f))| == |SettingsOf(f)|;
  }

  /** Nothing but finalizers, history and the instance record differs. */
  ghost predicate Still(w: World, w': World) {
    && w'.docs == w.docs && w'.payloads == w.payloads && w'.secrets == w.secrets && w'.nextUid == w.nextUid && w'.arrangement == w.arrangement && w'.clock == w.clock && w'.stamps == w.stamps
    && w'.objects.Keys == w.objects.Keys
    && forall u | u in w.objects :: w'.objects[u] == w.objects[u].(finalizers := w'.objects[u].finalizers)
  }

  ghost predicate NothingDeleting(w: World) {
    forall u | u in w.objects :: !w.objects[u].deleting
  }

  lemma StillTransitive(a: World, b: World, c: World)
    requires Still(a, b) && Still(b, c)
    ensures Still(a, c)
  {
  }

  lemma InertStays(p: Params, w: World, w': World, organization: string, o: Object, o': Object)
    requires Inert(p, w, organization, o) && Still(w, w') && o' == o.(finalizers := o'.finalizers)
    ensures Inert(p, w', organization, o')
  {
    if o.spec.OrganizationSpec? {
      AssignedSame(w.objects, w'.objects, Order(w), o.spec.bindings);
    }
    ComputedSame(p, w.secrets, organization, MembersFor(w.objects, Order(w), o), o, o', Look(w.docs, o.Key()), STILL);
    assert o'.Key() == o.Key();
  }

  /** No other encoding orders than before. */
  predicate StillCanonical(ticks: seq<Tick>, ticks': seq<Tick>) {
    Canonical(ticks) ==> Canonical(ticks')
  }

  lemma PutIsIdle(p: Params, s: State, organization: string, o: Object)
    requires QuietTicks(s.ticks) && (Canonical(s.ticks) || Single(o)) && Inert(p, s.w, organization, o)
    ensures var r := Put(p, s, organization, MembersFor(s.w.objects, Order(s.w), o), o).s;
            QuietTicks(r.ticks) && StillCanonical(s.ticks, r.ticks) && r.w == s.w.(foreign := r.w.foreign)
  {
    BeginIsQuiet(p, s);
    if s.ticks != [] {
      InertComputes(p, s.w.secrets, organization, MembersFor(s.w.objects, Order(s.w), o), o, s.w.docs[o.Key()], s.ticks[0].entropy);
      assert s.w.docs[o.Key() := s.w.docs[o.Key()]] == s.w.docs;
    }
  }

  lemma {:induction false} GatherIsCanonical(p: Params, s: State, bindings: seq<Binding>)
    ensures StillCanonical(s.ticks, Gather(p, s, bindings).out.s.ticks)
    decreases |bindings|
  {
    if bindings != [] {
      GatherIsCanonical(p, Begin(p, s).s, bindings[1..]);
    }
  }

  lemma SettleOneIsIdle(p: Params, s: State, i: Instance, organization: string, o: Object)
    requires QuietTicks(s.ticks) && (Canonical(s.ticks) || Single(o)) && Inert(p, s.w, organization, o) && !Retiring(i, o)
    ensures var r := SettleOne(p, s, i, organization, o).s;
            QuietTicks(r.ticks) && StillCanonical(s.ticks, r.ticks) && r.w == s.w.(foreign := r.w.foreign)
  {
    if o.spec.OrganizationSpec? {
      GatherIsQuiet(p, s, o.spec.bindings);
      GatherIsCanonical(p, s, o.spec.bindings);
      PutIsIdle(p, Gather(p, s, o.spec.bindings).out.s, organization, o);
    } else {
      PutIsIdle(p, s, organization, o);
    }
  }

  lemma {:induction false} SettleAllIsIdle(p: Params, s: State, i: Instance, organization: string, items: seq<Object>)
    requires QuietTicks(s.ticks) && (Canonical(s.ticks) || forall o | o in items :: Single(o))
    requires forall o | o in items :: Inert(p, s.w, organization, o) && !Retiring(i, o)
    ensures var r := SettleAll(p, s, i, organization, items).s;
            QuietTicks(r.ticks) && StillCanonical(s.ticks, r.ticks) && r.w == s.w.(foreign := r.w.foreign)
    decreases |items|
  {
    if items != [] {
      SettleOneIsIdle(p, s, i, organization, items[0]);
      var a := SettleOne(p, s, i, organization, items[0]);
      if a.ok {
        forall o | o in items[1..]
          ensures Inert(p, a.s.w, organization, o)
        {
          InertStays(p, s.w, a.s.w, organization, o, o);
        }
        SettleAllIsIdle(p, a.s, i, organization, items[1..]);
      }
    }
  }

  lemma {:induction false} MarkAllIsCanonical(p: Params, s: State, items: seq<Object>)
    ensures StillCanonical(s.ticks, MarkAll(p, s, items).s.ticks)
    decreases |items|
  {
    if items != [] {
      var a := AddFinalizer(p, s, items[0]);
      MarkAllIsCanonical(p, if items[0].deleting then a.s else a.s.(catalog := Catalogued(a.s.catalog, items[0])), items[1..]);
    }
  }

  lemma ProcessIsIdle(p: Params, s: State, i: Instance, organization: string, items: seq<Object>)
    requires QuietTicks(s.ticks) && !i.deleting && Current(p, s.w, items)
    requires Canonical(s.ticks) || forall o | o in items :: Single(o)
    requires forall o | o in items :: Inert(p, s.w, organization, o) && !o.deleting
    ensures var r := Process(p, s, i, organization, items).s;
            QuietTicks(r.ticks) && StillCanonical(s.ticks, r.ticks) && r.w == s.w.(objects := r.w.objects, foreign := r.w.foreign)
            && Isolates(p, s.w, r.w) && r.w.objects.Keys == s.w.objects.Keys
  {
    MarkAllIsQuiet(p, s, items);
    MarkAllIsCanonical(p, s, items);
    var m := MarkAll(p, s, items);
    assert Still(s.w, m.s.w) by {
      assert forall u | u in s.w.objects :: Same(p, s.w.objects[u], m.s.w.objects[u]);
    }
    forall o | o in items
      ensures Inert(p, m.s.w, organization, o) && !Retiring(i, o)
    {
      InertStays(p, s.w, m.s.w, organization, o, o);
    }
    SettleAllIsIdle(p, m.s, i, organization, items);
  }

  lemma ReconcileKindIsIdle(p: Params, s: State, i: Instance, kind: Kind, selector: Option<LabelSelector>, organization: string)
    requires QuietTicks(s.ticks) && WF(s.w) && NothingDeleting(s.w) && !i.deleting
    requires Canonical(s.ticks) || forall u | u in s.w.objects && Picked(s.w.objects[u], kind, selector) :: Single(s.w.objects[u])
    requires forall u | u in s.w.objects && Picked(s.w.objects[u], kind, selector) :: Inert(p, s.w, organization, s.w.objects[u])
    ensures var r := ReconcileKind(p, s, i, kind, selector, organization).s;
            QuietTicks(r.ticks) && StillCanonical(s.ticks, r.ticks) && WF(r.w) && Still(s.w, r.w)
  {
    BeginIsQuiet(p, s);
    ReconcileKindIsQuiet(p, s, i, kind, selector, organization);
    var b, items := Begin(p, s), List(s.w.objects, Order(s.w), kind, selector);
    ListDistinct(s.w, kind, selector);
    if b.ok && Convertible(selector) && Convertible(p.selector) {
      SnapshotIsSettleable(p, s.w, kind, selector);
      ProcessIsIdle(p, b.s, i, organization, items);
    }
  }

  /** Every document a pass upserts is at its fixpoint, whichever of the organizations does it. */
  ghost predicate Settled(p: Params, w: World) {
    && WF(w) && NothingDeleting(w)
    && (forall u | u in w.objects && !Nested(w.objects[u]) && Selects(p.selector, w.objects[u].labels) :: Inert(p, w, "", w.objects[u]))
    && (forall u, v | u in w.objects && v in w.objects && Nested(w.objects[u]) && Owner(p, w.objects[v], w.objects[u]) ::
          Inert(p, w, w.objects[v].Id(), w.objects[u]))
  }

  lemma DirectStays(p: Params, w: World, w': World, u: nat)
    requires Settled(p, w) && Still(w, w') && u in w'.objects && !Nested(w'.objects[u]) && Selects(p.selector, w'.objects[u].labels)
    ensures Inert(p, w', "", w'.objects[u])
  {
    InertStays(p, w, w', "", w.objects[u], w'.objects[u]);
  }

  lemma NestedStays(p: Params, w: World, w': World, u: nat, v: nat)
    requires Settled(p, w) && Still(w, w') && u in w'.objects && v in w'.objects && Nested(w'.objects[u]) && Owner(p, w'.objects[v], w'.objects[u])
    ensures Inert(p, w', w'.objects[v].Id(), w'.objects[u])
  {
    assert Owner(p, w.objects[v], w.objects[u]) && w.objects[v].Id() == w'.objects[v].Id();
    InertStays(p, w, w', w.objects[v].Id(), w.objects[u], w'.objects[u]);
  }

  lemma SettledStays(p: Params, w: World, w': World)
    requires Settled(p, w) && Still(w, w') && WF(w')
    ensures Settled(p, w')
  {
    forall u | u in w'.objects && !Nested(w'.objects[u]) && Selects(p.selector, w'.objects[u].labels)
      ensures Inert(p, w', "", w'.objects[u])
    {
      DirectStays(p, w, w', u);
    }
    forall u, v | u in w'.objects && v in w'.objects && Nested(w'.objects[u]) && Owner(p, w'.objects[v], w'.objects[u])
      ensures Inert(p, w', w'.objects[v].Id(), w'.objects[u])
    {
      NestedStays(p, w, w', u, v);
    }
  }

  lemma OrderlyLater(p: Params, w: World, w': World, ticks: seq<Tick>, ticks': seq<Tick>)
    requires Orderly(p, w, ticks) && Still(w, w') && StillCanonical(ticks, ticks')
    ensures Orderly(p, w', ticks')
  {
    if OneEnvironment(p, w) {
      forall u, v | u in w'.objects && v in w'.objects && Owner(p, w'.objects[v], w'.objects[u])
        ensures Single(w'.objects[u])
      {
        assert Owner(p, w.objects[v], w.objects[u]);
      }
    }
  }

  /** The listed organizations are there, but for finalizers. */
  ghost predicate Present(p: Params, w: World, orgs: seq<Object>) {
    forall o | o in orgs ::
      Picked(o, OrganizationKind, p.selector) && o.uid in w.objects && w.objects[o.uid] == o.(finalizers := w.objects[o.uid].finalizers)
  }

  lemma OrganizationKindIsIdle(p: Params, s: State, i: Instance, kind: Kind, org: Object)
    requires QuietTicks(s.ticks) && Orderly(p, s.w, s.ticks) && Settled(p, s.w) && !i.deleting && Present(p, s.w, [org])
    requires org.spec.OrganizationSpec? && (kind == FeatureKind || kind == ClientKind)
    ensures var r := ReconcileKind(p, s, i, kind, org.spec.resourceSelector, org.Id()).s;
            QuietTicks(r.ticks) && Orderly(p, r.w, r.ticks) && Settled(p, r.w) && Still(s.w, r.w)
  {
    assert org in [org];
    var v := org.uid;
    assert s.w.objects[v].Id() == org.Id() && OwnSelector(s.w.objects[v]) == org.spec.resourceSelector;
    forall u | u in s.w.objects && Picked(s.w.objects[u], kind, org.spec.resourceSelector)
      ensures Inert(p, s.w, org.Id(), s.w.objects[u]) && (Canonical(s.ticks) || Single(s.w.objects[u]))
    {
      assert Owner(p, s.w.objects[v], s.w.objects[u]);
    }
    ReconcileKindIsIdle(p, s, i, kind, org.spec.resourceSelector, org.Id());
    var r := ReconcileKind(p, s, i, kind, org.spec.resourceSelector, org.Id()).s;
    SettledStays(p, s.w, r.w);
    OrderlyLater(p, s.w, r.w, s.ticks, r.ticks);
  }

  lemma PresentLater(p: Params, w: World, w': World, orgs: seq<Object>)
    requires Present(p, w, orgs) && Still(w, w')
    ensures Present(p, w', orgs) && (orgs != [] ==> Present(p, w', orgs[1..]) && Present(p, w', [orgs[0]]))
  {
  }

  lemma OrganizationIsIdle(p: Params, s: State, i: Instance, org: Object)
    requires QuietTicks(s.ticks) && Orderly(p, s.w, s.ticks) && Settled(p, s.w) && !i.deleting && Present(p, s.w, [org])
    requires org.spec.OrganizationSpec?
    ensures var r := ReconcileOrganization(p, s, i, org).s;
            QuietTicks(r.ticks) && Orderly(p, r.w, r.ticks) && Settled(p, r.w) && Still(s.w, r.w)
  {
    OrganizationKindIsIdle(p, s, i, FeatureKind, org);
    var f := ReconcileKind(p, s, i, FeatureKind, org.spec.resourceSelector, org.Id());
    if f.ok {
      PresentLater(p, s.w, f.s.w, [org]);
      OrganizationKindIsIdle(p, f.s, i, ClientKind, org);
      StillTransitive(s.w, f.s.w, ReconcileOrganization(p, s, i, org).s.w);
    }
  }

  lemma {:induction false} ReconcileOwnedIsIdle(p: Params, s: State, i: Instance, orgs: seq<Object>)
    requires QuietTicks(s.ticks) && Orderly(p, s.w, s.ticks) && Settled(p, s.w) && !i.deleting && Present(p, s.w, orgs)
    requires forall o | o in orgs :: o.spec.OrganizationSpec?
    ensures var r := ReconcileOwned(p, s, i, orgs).s; Settled(p, r.w) && Still(s.w, r.w)
    decreases |orgs|
  {
    if orgs != [] {
      PresentLater(p, s.w, s.w, orgs);
      OrganizationIsIdle(p, s, i, orgs[0]);
      var c := ReconcileOrganization(p, s, i, orgs[0]);
      if c.ok {
        PresentLater(p, s.w, c.s.w, orgs);
        ReconcileOwnedIsIdle(p, c.s, i, orgs[1..]);
        StillTransitive(s.w, c.s.w, ReconcileOwned(p, c.s, i, orgs[1..]).s.w);
      }
    }
  }

  lemma DirectKindIsIdle(p: Params, s: State, i: Instance, kind: Kind)
    requires QuietTicks(s.ticks) && Orderly(p, s.w, s.ticks) && Settled(p, s.w) && !i.deleting
    requires kind == UserKind || kind == OrganizationKind
    ensures var r := ReconcileKind(p, s, i, kind, p.selector, "").s;
            QuietTicks(r.ticks) && Orderly(p, r.w, r.ticks) && Settled(p, r.w) && Still(s.w, r.w)
  {
    ReconcileKindIsIdle(p, s, i, kind, p.selector, "");
    var r := ReconcileKind(p, s, i, kind, p.selector, "").s;
    SettledStays(p, s.w, r.w);
    OrderlyLater(p, s.w, r.w, s.ticks, r.ticks);
  }

  lemma ReconcileAllIsIdle(p: Params, s: State, i: Instance)
    requires QuietTicks(s.ticks) && Orderly(p, s.w, s.ticks) && Settled(p, s.w) && !i.deleting
    ensures var r := ReconcileAll(p, s, i).s; Settled(p, r.w) && Still(s.w, r.w)
  {
    var s0 := s.(catalog := []);
    DirectKindIsIdle(p, s0, i, UserKind);
    var u := ReconcileKind(p, s0, i, UserKind, p.selector, "");
    DirectKindIsIdle(p, u.s, i, OrganizationKind);
    var o := ReconcileKind(p, u.s, i, OrganizationKind, p.selector, "");
    BeginIsQuiet(p, u.s);
    SnapshotKinds(p, u.s, p.selector);
    var orgs := ListedOrganizations(p, u.s.w);
    ListDistinct(u.s.w, OrganizationKind, p.selector);
    StillTransitive(s.w, u.s.w, o.s.w);
    if u.ok && o.ok {
      ReconcileOwnedIsIdle(p, o.s, i, orgs);
      StillTransitive(s.w, o.s.w, ReconcileOwned(p, o.s, i, orgs).s.w);
    }
  }

  lemma OpeningIsCanonical(p: Params, s: State)
    ensures StillCanonical(s.ticks, Opening(p, s).s.ticks)
  {
  }

  lemma StillAside(w: World, m: World, t: World, x: World)
    requires m == w.(instance := m.instance) && Still(m, t) && x == t.(instance := x.instance)
    ensures Still(w, x) && Still(w, m) && Still(t, x)
  {
  }

  lemma IdlePass(p: Params, w: World, ticks: seq<Tick>)
    requires QuietTicks(ticks) && Orderly(p, w, ticks) && Settled(p, w)
    requires w.instance.Some? ==> !w.instance.value.deleting
    ensures var x := Reconcile(p, State(w, ticks, [])).s.w;
            Settled(p, x) && Still(w, x) && (x.instance.Some? ==> !x.instance.value.deleting)
  {
    var s := State(w, ticks, []);
    if w.instance.Some? && !p.suspend {
      PassUnfolds(p, s);
      OpeningIsCanonical(p, s);
      var m := Opening(p, s);
      SettledStays(p, w, m.s.w);
      OrderlyLater(p, w, m.s.w, ticks, m.s.ticks);
      if m.ok {
        ReconcileAllIsIdle(p, m.s, w.instance.value);
        var t, x := ReconcileAll(p, m.s, w.instance.value).s.w, Reconcile(p, s).s.w;
        StillAside(w, m.s.w, t, x);
        SettledStays(p, t, x);
      }
    } else {
      BeginIsQuiet(p, s);
    }
  }

  lemma {:induction false} IdleRun(p: Params, w: World, rounds: seq<Round>)
    requires Settled(p, w) && (w.instance.Some? ==> !w.instance.value.deleting)
    requires forall r | r in rounds :: QuietRound(r) && Orderly(p, w, r.ticks)
    ensures Still(w, Run(p, w, rounds))
    decreases |rounds|
  {
    if rounds != [] {
      assert QuietRound(rounds[0]);
      IdlePass(p, w, rounds[0].ticks);
      var x := Reconcile(p, State(w, rounds[0].ticks, [])).s.w;
      forall r | r in rounds[1..]
        ensures QuietRound(r) && Orderly(p, x, r.ticks)
      {
        assert r in rounds;
        OrderlyLater(p, w, x, r.ticks, r.ticks);
      }
      IdleRun(p, x, rounds[1..]);
      StillTransitive(w, x, Run(p, w, rounds));
    }
  }

  /** No client is selected by two organizations the instance lists. */
  ghost predicate OneOwner(p: Params, w: World) {
    forall u, v, v' | u in w.objects && v in w.objects && v' in w.objects && w.objects[u].spec.ClientSpec? ::
      Owner(p, w.objects[v], w.objects[u]) && Owner(p, w.objects[v'], w.objects[u]) ==> v == v'
  }

  lemma {:induction false} FoldedByOne(p: Params, secrets: Secrets, i: Instance, orgs: seq<Object>, id: string, o: Object, d: Option<Doc>)
    requires o.spec.ClientSpec? && !Retiring(i, o) && Mergeable(secrets, o)
    requires forall org | org in orgs && Selects(OwnSelector(org), o.labels) :: org.Id() == id
    ensures Folded(p, secrets, i, orgs, o, d) == if FirstOwner(orgs, o).Some? then Merge(p, secrets, id, [], o, d) else d
    decreases |orgs|
  {
    if orgs != [] {
      if Selects(OwnSelector(orgs[0]), o.labels) {
        assert orgs[0] in orgs;
        LastMergeWins(p, secrets, id, id, o, d);
        FoldedByOne(p, secrets, i, orgs[1..], id, o, Merge(p, secrets, id, [], o, d));
      } else {
        FoldedByOne(p, secrets, i, orgs[1..], id, o, d);
      }
    }
  }

  /** Every organization that selects the client is the one. */
  lemma OnlyOwner(p: Params, w: World, o: Object, v: nat)
    requires WF(w) && OneOwner(p, w) && o.spec.ClientSpec?
    requires o.uid in w.objects && w.objects[o.uid] == o && v in w.objects && Owner(p, w.objects[v], o)
    ensures forall org | org in ListedOrganizations(p, w) && Selects(OwnSelector(org), o.labels) :: org == w.objects[v]
  {
    ListMembers(w, OrganizationKind, p.selector);
    forall org | org in ListedOrganizations(p, w) && Selects(OwnSelector(org), o.labels)
      ensures org == w.objects[v]
    {
      var v': nat :| v' in w.objects && w.objects[v'] == org;
      assert Owner(p, w.objects[v'], o);
    }
  }

  /** Folding the organizations' effects leaves what each of them would. */
  lemma FoldedInert(p: Params, w: World, o: Object, v: nat, d: Option<Doc>)
    requires WF(w) && OneOwner(p, w) && w.instance.Some? && !w.instance.value.deleting && Mergeable(w.secrets, o)
    requires o.uid in w.objects && w.objects[o.uid] == o && !o.deleting && Nested(o) && v in w.objects && Owner(p, w.objects[v], o)
    ensures var x := Folded(p, w.secrets, w.instance.value, ListedOrganizations(p, w), o, d);
            x.Some? && Merge(p, w.secrets, w.objects[v].Id(), [], o, x) == x
  {
    var i, orgs, id := w.instance.value, ListedOrganizations(p, w), w.objects[v].Id();
    ListMembers(w, OrganizationKind, p.selector);
    assert w.objects[v] in orgs;
    FirstOwnerExists(orgs, o);
    if o.spec.FeatureSpec? {
      FoldedIsFirst(p, w.secrets, i, orgs, o, d);
      FirstMergeWins(p, w.secrets, FirstOwner(orgs, o).value.Id(), id, o, d);
    } else {
      OnlyOwner(p, w, o, v);
      FoldedByOne(p, w.secrets, i, orgs, id, o, d);
      LastMergeWins(p, w.secrets, id, id, o, d);
    }
  }

  lemma OwnedIsListed(p: Params, w: World, o: Object, v: nat)
    requires WF(w) && Nested(o) && v in w.objects && Owner(p, w.objects[v], o)
    ensures Listed(p, w, o)
  {
    ListMembers(w, OrganizationKind, p.selector);
    assert w.objects[v] in ListedOrganizations(p, w);
    FirstOwnerExists(ListedOrganizations(p, w), o);
  }

  /** After a complete pass the document of a listed feature or client is inert for the organization. */
  lemma NestedInert(p: Params, w: World, x: World, o: Object, v: nat)
    requires WF(w) && OneOwner(p, w) && Passed(p, w, x, true) && !w.instance.value.deleting
    requires o.uid in w.objects && w.objects[o.uid] == o && !o.deleting && Nested(o) && v in w.objects && Owner(p, w.objects[v], o)
    ensures Inert(p, x, w.objects[v].Id(), o)
  {
    OwnedIsListed(p, w, o, v);
    assert Progress(p, w, x, w.instance.value, o, true);
    FoldedInert(p, w, o, v, Look(w.docs, o.Key()));
  }

  /** With nothing being deleted no object goes, and the memberships stay what they were. */
  lemma NothingGoes(p: Params, w: World, x: World)
    requires NothingDeleting(w) && Isolates(p, w, x)
    ensures x.objects.Keys == w.objects.Keys && Stayers(p, w.objects) == w.objects && SameUsers(x.objects, w.objects)
    ensures NothingDeleting(x)
  {
  }

  lemma DirectInert(p: Params, w: World, x: World, o: Object)
    requires WF(w) && NothingDeleting(w) && Passed(p, w, x, true) && !w.instance.value.deleting
    requires o.uid in w.objects && w.objects[o.uid] == o && !Nested(o) && Selects(p.selector, o.labels)
    ensures Inert(p, x, "", o)
  {
    var i, d, members := w.instance.value, Look(w.docs, o.Key()), MembersFor(w.objects, Order(w), o);
    NothingGoes(p, w, x);
    assert Progress(p, w, x, i, o, true);
    if o.spec.OrganizationSpec? {
      AssignedSame(x.objects, w.objects, Order(w), o.spec.bindings);
    }
    MergeIdempotentOnce(p, w.secrets, members, o, d);
  }

  lemma DirectSettles(p: Params, w: World, x: World, u: nat)
    requires WF(w) && NothingDeleting(w) && Passed(p, w, x, true) && !w.instance.value.deleting
    requires u in x.objects && !Nested(x.objects[u]) && Selects(p.selector, x.objects[u].labels)
    ensures Inert(p, x, "", x.objects[u])
  {
    DirectInert(p, w, x, w.objects[u]);
    InertSame(p, x, "", w.objects[u], x.objects[u]);
  }

  lemma NestedSettles(p: Params, w: World, x: World, u: nat, v: nat)
    requires WF(w) && NothingDeleting(w) && OneOwner(p, w) && Passed(p, w, x, true) && !w.instance.value.deleting
    requires u in x.objects && v in x.objects && Nested(x.objects[u]) && Owner(p, x.objects[v], x.objects[u])
    ensures Inert(p, x, x.objects[v].Id(), x.objects[u])
  {
    OwnerKept(p, w, x, u, v);
    NestedInert(p, w, x, w.objects[u], v);
    InertSame(p, x, w.objects[v].Id(), w.objects[u], x.objects[u]);
  }

  lemma OwnerKept(p: Params, w: World, x: World, u: nat, v: nat)
    requires WF(w) && Isolates(p, w, x) && NothingDeleting(w)
    requires u in x.objects && v in x.objects && Nested(x.objects[u]) && Owner(p, x.objects[v], x.objects[u])
    ensures u in w.objects && v in w.objects && w.objects[u].uid == u && !w.objects[u].deleting && Nested(w.objects[u])
    ensures Owner(p, w.objects[v], w.objects[u]) && x.objects[v].Id() == w.objects[v].Id()
    ensures x.objects[u] == w.objects[u].(finalizers := x.objects[u].finalizers)
  {
    var org, org' := w.objects[v], x.objects[v];
    assert org' == org.(finalizers := org'.finalizers);
  }

  lemma CompletePassSettles(p: Params, w: World, x: World)
    requires WF(w) && NothingDeleting(w) && OneOwner(p, w) && Passed(p, w, x, true) && !w.instance.value.deleting
    ensures Settled(p, x)
  {
    NothingGoes(p, w, x);
    forall u | u in x.objects && !Nested(x.objects[u]) && Selects(p.selector, x.objects[u].labels)
      ensures Inert(p, x, "", x.objects[u])
    {
      DirectSettles(p, w, x, u);
    }
    forall u, v | u in x.objects && v in x.objects && Nested(x.objects[u]) && Owner(p, x.objects[v], x.objects[u])
      ensures Inert(p, x, x.objects[v].Id(), x.objects[u])
    {
      NestedSettles(p, w, x, u, v);
    }
  }

  lemma OrderlyAfter(p: Params, w: World, x: World, ticks: seq<Tick>)
    requires WF(w) && NothingDeleting(w) && Isolates(p, w, x) && Orderly(p, w, ticks)
    ensures Orderly(p, x, ticks)
  {
    if OneEnvironment(p, w) {
      forall u, v | u in x.objects && v in x.objects && Owner(p, x.objects[v], x.objects[u])
        ensures Single(x.objects[u])
      {
        assert Owner(p, w.objects[v], w.objects[u]) && x.objects[u].spec == w.objects[u].spec;
      }
    }
  }

  lemma InertSame(p: Params, w: World, organization: string, o: Object, o': Object)
    requires Inert(p, w, organization, o) && o' == o.(finalizers := o'.finalizers)
    ensures Inert(p, w, organization, o')
  {
    assert Still(w, w);
    InertStays(p, w, w, organization, o, o');
  }

  /** The whole-pass fixpoint: after one complete pass of a live instance, no number of further passes,
      complete or cut short, writes or changes a document, or touches a cached payload. */
  lemma WholePassFixpoint(p: Params, w: World, first: seq<Tick>, rounds: seq<Round>)
    requires WF(w) && NothingDeleting(w) && OneOwner(p, w) && !p.suspend
    requires w.instance.Some? && !w.instance.value.deleting
    requires QuietTicks(first) && Reconcile(p, State(w, first, [])).ok
    requires forall r | r in rounds :: QuietRound(r) && Orderly(p, w, r.ticks)
    ensures var x := Reconcile(p, State(w, first, [])).s.w;
            var y := Run(p, x, rounds);
            y.docs == x.docs && y.payloads == x.payloads && y.clock == x.clock
  {
    QuietPass(p, w, first);
    var x := Reconcile(p, State(w, first, [])).s.w;
    CompletePassSettles(p, w, x);
    forall r | r in rounds
      ensures Orderly(p, x, r.ticks)
    {
      assert Orderly(p, w, r.ticks);
      OrderlyAfter(p, w, x, r.ticks);
    }
    IdleRun(p, x, rounds);
  }

  /** Without canonical encoding the fixpoint fails exactly for features with two or more environments: the
      unchanged document is written again with a new date. */
  lemma SpuriousRewrite(existing: Feature, f: Feature, now: Time, reordered: bool)
    requires MergedFeature(existing, f) == existing
    ensures var r := UpsertFeature(Some(existing), f, now, reordered);
            && (r.wrote <==> reordered && |SettingsOf(existing)| >= 2)
            && r.doc == if r.wrote then existing.(dateUpdated := now) else existing
  {
  }

  /** Without the one-organization rule it fails too: of two upserts of a client for different
      organizations, one always writes. */
  lemma TwoOwnersNeverSettle(existing: SDKConnection, a: SDKConnection, b: SDKConnection, now: Time, key1: string, key2: string)
    requires a == b.(organization := a.organization)
    ensures var r := UpsertConnection(Some(existing), a, now, key1, key2);
            var t := UpsertConnection(Some(r.doc), b, now, key1, key2);
            !r.wrote && !t.wrote <==> MergedConnection(existing, a) == existing && a.organization == b.organization
  {
  }
}
