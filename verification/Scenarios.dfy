/**
 Runs that reach what the theorems speak of: a cluster on which everything completes and nothing is rewritten, one
 whose client has two owners, and one that ends with a stranded finalizer. And what the watch handlers miss.
 */
module Scenarios {
  import opened Wrappers
  import opened Documents
  import opened Selectors
  import opened Resources
  import opened FeatureTranslation
  import opened Worlds
  import opened Pass
  import opened NoOrphans
  import opened NoStrands
  import opened Effects
  import opened Quiet
  import opened Target
  import opened Restart
  import opened Completion
  import opened Fixpoint
  import opened Rewrites
  import opened Declarations
  import opened Finalizers
  import opened Isolation
  import FinalizerNames
  import PasswordHash

  const OURS: Labels := map["instance" := "one"]
  const THEIRS: Labels := map["organization" := "a"]

  function Selecting(labels: Labels): Option<LabelSelector> {
    Some(LabelSelector(labels, []))
  }

  function ParamsFor(prune: bool, parse: Parse, scrypt: PasswordHash.Derivation): Params {
    Params("finalizer", prune, false, Selecting(OURS), parse, scrypt)
  }

  function Owning(id: string): Object {
    Object(0, id, OURS, [], false, OrganizationSpec("", "", "", [], Selecting(THEIRS)))
  }

  /** A feature with its organization's labels alone. */
  const FEATURE := Object(1, "feature", THEIRS, [], false, FeatureSpec("", "", [], "", "", []))

  const CLIENT :=
    Object(2, "client", THEIRS, [], false, ClientSpec("", "", [], "", false, "", false, false, false, Some(TokenReference("secret", ""))))

  const SECRETS: Secrets := map["secret" := map["token" := "token"]]

  /** A cluster with a new instance and the objects. */
  function Cluster(objects: map<nat, Object>): World {
    World(objects, 3, [], Some(Instance([], false)), map[], [], SECRETS, {}, 0, map[])
  }

  lemma OrganizationsIn(p: Params, w: World)
    requires WF(w)
    ensures forall org :: org in ListedOrganizations(p, w) <==>
              exists v | v in w.objects :: w.objects[v] == org && Picked(org, OrganizationKind, p.selector)
  {
    ListMembers(w, OrganizationKind, p.selector);
    forall v | v in w.objects && Picked(w.objects[v], OrganizationKind, p.selector)
      ensures w.objects[v] in ListedOrganizations(p, w)
    {
    }
  }

  /** Enough for a cluster to be sound. */
  lemma SoundIfAllFit(p: Params, w: World)
    requires WF(w) && w.instance.Some? && Convertible(p.selector)
    requires forall u | u in w.objects :: Fit(w.secrets, w.instance.value, w.objects[u]) && Convertible(OwnSelector(w.objects[u]))
    ensures Sound(p, w, w.instance.value)
  {
    OrganizationsIn(p, w);
  }

  /** An organization, a feature and a client that nothing keeps from settling. */
  function Tidied(): World {
    Cluster(map[0 := Owning("a"), 1 := FEATURE, 2 := CLIENT])
  }

  lemma LabelsSelect()
    ensures Selects(Selecting(OURS), OURS) && Selects(Selecting(THEIRS), THEIRS)
    ensures !Selects(Selecting(OURS), THEIRS) && !Selects(Selecting(THEIRS), OURS)
  {
    assert "instance" in OURS && "organization" in THEIRS;
  }

  lemma AllAreFit(i: Instance, id: string)
    ensures Fit(SECRETS, i, Owning(id)) && Fit(SECRETS, i, FEATURE) && Fit(SECRETS, i, CLIENT)
    ensures Owning(id).Kind() == OrganizationKind && FEATURE.Kind() == FeatureKind && CLIENT.Kind() == ClientKind
    ensures Convertible(OwnSelector(Owning(id))) && Convertible(OwnSelector(FEATURE)) && Convertible(OwnSelector(CLIENT))
  {
    assert Field(SECRETS, "secret", "token") == Some("token");
  }

  /** Three live objects of different keys. */
  lemma ThreeAreWellFormed(a: Object, b: Object, c: Object)
    requires a.uid == 0 && b.uid == 1 && c.uid == 2 && !a.deleting && !b.deleting && !c.deleting
    requires a.Key() != b.Key() && a.Key() != c.Key() && b.Key() != c.Key()
    ensures var w := Cluster(map[0 := a, 1 := b, 2 := c]); WF(w) && Steady(w) && NothingDeleting(w)
  {
    var w := Cluster(map[0 := a, 1 := b, 2 := c]);
    forall u, v | u in w.objects && v in w.objects && u != v
      ensures w.objects[u].Key() != w.objects[v].Key()
    {
      assert (u == 0 || u == 1 || u == 2) && (v == 0 || v == 1 || v == 2);
    }
  }

  ghost predicate Settles(p: Params, o: Object) {
    Fit(SECRETS, Instance([], false), o) && Convertible(OwnSelector(o))
  }

  lemma ThreeAreSound(p: Params, a: Object, b: Object, c: Object)
    requires WF(Cluster(map[0 := a, 1 := b, 2 := c])) && Settles(p, a) && Settles(p, b) && Settles(p, c) && Convertible(p.selector)
    ensures var w := Cluster(map[0 := a, 1 := b, 2 := c]); Sound(p, w, w.instance.value)
  {
    var w := Cluster(map[0 := a, 1 := b, 2 := c]);
    forall u | u in w.objects
      ensures Settles(p, w.objects[u])
    {
      assert w.objects[u] == a || w.objects[u] == b || w.objects[u] == c;
    }
    SoundIfAllFit(p, w);
  }

  lemma KeysDiffer()
    ensures Owning("a").Key() == DocKey(OrganizationKind, "a") && Owning("b").(uid := 1).Key() == DocKey(OrganizationKind, "b")
    ensures FEATURE.Key() == DocKey(FeatureKind, "feature") && CLIENT.Key() == DocKey(ClientKind, "client")
  {
  }

  lemma TidiedIsSound(prune: bool, parse: Parse, scrypt: PasswordHash.Derivation)
    ensures var p, w := ParamsFor(prune, parse, scrypt), Tidied();
            WF(w) && Steady(w) && NothingDeleting(w) && Sound(p, w, w.instance.value)
  {
    var p, w := ParamsFor(prune, parse, scrypt), Tidied();
    AllAreFit(w.instance.value, "a");
    KeysDiffer();
    ThreeAreWellFormed(Owning("a"), FEATURE, CLIENT);
    ThreeAreSound(p, Owning("a"), FEATURE, CLIENT);
  }

  /** With one organization in the cluster nothing has two owners. */
  lemma OnlyOrganizationOwns(p: Params, w: World, v: nat)
    requires forall u | u in w.objects && u != v :: w.objects[u].Kind() != OrganizationKind
    ensures OneOwner(p, w)
  {
  }

  lemma TidiedIsOwnedOnce(prune: bool, parse: Parse, scrypt: PasswordHash.Derivation)
    ensures var p, w := ParamsFor(prune, parse, scrypt), Tidied();
            OneOwner(p, w) && OneEnvironment(p, w) && Reachable(p, w, w.objects[1]) && Reachable(p, w, w.objects[2])
  {
    var p, w := ParamsFor(prune, parse, scrypt), Tidied();
    LabelsSelect();
    AllAreFit(w.instance.value, "a");
    OnlyOrganizationOwns(p, w, 0);
    assert Owner(p, w.objects[0], w.objects[1]) && Owner(p, w.objects[0], w.objects[2]);
    assert forall u | u in w.objects :: Single(w.objects[u]);
  }

  lemma SameOrder(p: Params, w: World)
    ensures SameMembers(p, w, w.arrangement)
  {
    assert w.(arrangement := w.arrangement) == w;
  }

  /** So restart confluence and the fixpoint speak of passes there are: on that cluster every calm pass of enough
      calls completes, after any undisturbed ones, and no pass after a complete one writes anything. */
  lemma PassesThereAre(prune: bool, parse: Parse, scrypt: PasswordHash.Derivation, rounds: seq<Round>, ticks: seq<Tick>, again: seq<Tick>)
    requires forall r | r in rounds :: QuietRound(r)
    requires var p, w := ParamsFor(prune, parse, scrypt), Tidied(); Calm(ticks) && |ticks| >= PassCalls(p, w) && QuietTicks(again)
    ensures var p, w := ParamsFor(prune, parse, scrypt), Tidied();
            && Reconcile(p, State(w, ticks, [])).ok
            && Reconcile(p, State(Run(p, w, rounds), ticks, [])).ok
            && var x := Reconcile(p, State(w, ticks, [])).s.w; Reconcile(p, State(x, again, [])).s.w.clock == x.clock
  {
    var p, w := ParamsFor(prune, parse, scrypt), Tidied();
    TidiedIsSound(prune, parse, scrypt);
    TidiedIsOwnedOnce(prune, parse, scrypt);
    SameOrder(p, w);
    RestartCompletes(p, w, [], ticks);
    RestartCompletes(p, w, rounds, ticks);
    FurtherPassesWriteNothingExactly(p, w, ticks, w.arrangement);
    QuietPass(p, w, ticks);
  }

  /** Two organizations select the same client. */
  function Contested(): World {
    Cluster(map[0 := Owning("a"), 1 := Owning("b").(uid := 1), 2 := CLIENT])
  }

  lemma ContestedIsSound(prune: bool, parse: Parse, scrypt: PasswordHash.Derivation)
    ensures var p, w := ParamsFor(prune, parse, scrypt), Contested();
            WF(w) && Steady(w) && NothingDeleting(w) && Sound(p, w, w.instance.value)
  {
    var p, w := ParamsFor(prune, parse, scrypt), Contested();
    AllAreFit(w.instance.value, "a");
    AllAreFit(w.instance.value, "b");
    assert Settles(p, Owning("b").(uid := 1));
    KeysDiffer();
    ThreeAreWellFormed(Owning("a"), Owning("b").(uid := 1), CLIENT);
    ThreeAreSound(p, Owning("a"), Owning("b").(uid := 1), CLIENT);
  }

  lemma ContestedHasTwoOwners(prune: bool, parse: Parse, scrypt: PasswordHash.Derivation)
    ensures var p, w := ParamsFor(prune, parse, scrypt), Contested(); !OneOwner(p, w) && OneEnvironment(p, w)
  {
    var p, w := ParamsFor(prune, parse, scrypt), Contested();
    LabelsSelect();
    assert w.objects[2].spec.ClientSpec? && Owner(p, w.objects[0], w.objects[2]) && Owner(p, w.objects[1], w.objects[2]);
  }

  /** Both passes complete, and the second writes although nothing changed. */
  lemma ContestedClientIsRewritten(prune: bool, parse: Parse, scrypt: PasswordHash.Derivation, first: seq<Tick>, second: seq<Tick>)
    requires var p, w := ParamsFor(prune, parse, scrypt), Contested();
             Calm(first) && Calm(second) && |first| >= PassCalls(p, w) && |second| >= PassCalls(p, w)
    ensures var p, w := ParamsFor(prune, parse, scrypt), Contested();
            var r := Reconcile(p, State(w, first, []));
            var t := Reconcile(p, State(r.s.w, second, []));
            WF(w) && NothingDeleting(w) && !OneOwner(p, w) && r.ok && t.ok && t.s.w.clock != r.s.w.clock
  {
    var p, w := ParamsFor(prune, parse, scrypt), Contested();
    ContestedIsSound(prune, parse, scrypt);
    ContestedHasTwoOwners(prune, parse, scrypt);
    TwoPassesComplete(p, w, first, second);
    SecondPassWritesNothingExactly(p, w, first, second);
  }

  lemma TwoPassesComplete(p: Params, w: World, first: seq<Tick>, second: seq<Tick>)
    requires WF(w) && Steady(w) && w.instance.Some? && !p.suspend && Sound(p, w, w.instance.value)
    requires Calm(first) && Calm(second) && |first| >= PassCalls(p, w) && |second| >= PassCalls(p, w)
    ensures var r := Reconcile(p, State(w, first, [])); r.ok && Reconcile(p, State(r.s.w, second, [])).ok
  {
    RestartCompletes(p, w, [], first);
    RestartCompletes(p, w, [Attempt(first)], second);
    LastAttempt(p, w, [], first);
    assert [] + [Attempt(first)] == [Attempt(first)];
  }

  /** A new instance and nothing else. */
  const NEW := World(map[], 0, [], Some(Instance([], false)), map[], [], map[], {}, 0, map[])

  /** An organization and a feature are created and reconciled, the organization is deleted and reconciled away,
      the instance is deleted and reconciled away. */
  function OrganizationFirst(ticks: seq<Tick>): seq<Round> {
    [Interval([Create(Owning("a")), Create(FEATURE)]), Attempt(ticks),
     Interval([Delete(OrganizationKind, 0)]), Attempt(ticks),
     Interval([DeleteInstance]), Attempt(ticks)]
  }

  /** The object with this instance's finalizer alone. */
  ghost predicate Holding(p: Params, o: Object, base: Object) {
    o == base.(finalizers := o.finalizers) && Carries(p, o) && Without(o.finalizers, p.finalizer) == []
  }

  lemma {:induction false} ListShort(objects: map<nat, Object>, order: seq<nat>, kind: Kind, selector: Option<LabelSelector>)
    ensures |List(objects, order, kind, selector)| <= |order|
  {
    if order != [] {
      ListShort(objects, order[1..], kind, selector);
    }
  }

  lemma {:induction false} FewCalls(items: seq<Object>)
    requires forall o | o in items :: SettleCalls(o) == 2
    ensures Calls(items) == 3 * |items|
  {
    if items != [] {
      FewCalls(items[1..]);
    }
  }

  /** Two objects at most, and no bindings. */
  ghost predicate Small(w: World) {
    WF(w) && w.nextUid == 2 && w.arrangement == [] && forall u | u in w.objects :: SettleCalls(w.objects[u]) == 2
  }

  lemma OrderOfTwo(w: World)
    requires w.nextUid == 2 && w.arrangement == []
    ensures Order(w) == [0, 1]
  {
    assert Unnamed([], 1) == [] + [0] && Unnamed([], 2) == [0] + [1];
  }

  lemma FewKindCalls(w: World, kind: Kind, selector: Option<LabelSelector>)
    requires Small(w)
    ensures KindCalls(w, kind, selector) <= 7
  {
    OrderOfTwo(w);
    ListShort(w.objects, Order(w), kind, selector);
    ListMembers(w, kind, selector);
    FewCalls(List(w.objects, Order(w), kind, selector));
  }

  lemma {:induction false} FewOwnedCalls(w: World, orgs: seq<Object>)
    requires Small(w)
    ensures OwnedCalls(w, orgs) <= 14 * |orgs|
  {
    if orgs != [] {
      FewKindCalls(w, FeatureKind, OwnSelector(orgs[0]));
      FewKindCalls(w, ClientKind, OwnSelector(orgs[0]));
      FewOwnedCalls(w, orgs[1..]);
    }
  }

  lemma FewPassCalls(p: Params, w: World)
    requires Small(w)
    ensures PassCalls(p, w) <= 45
  {
    FewKindCalls(w, UserKind, p.selector);
    FewKindCalls(w, OrganizationKind, p.selector);
    OrderOfTwo(w);
    ListShort(w.objects, Order(w), OrganizationKind, p.selector);
    FewOwnedCalls(w, ListedOrganizations(p, w));
  }

  /** A calm pass over a small cluster of fit objects, and what it leaves of each object. */
  lemma SmallPass(p: Params, w: World, ticks: seq<Tick>)
    requires Small(w) && w.instance.Some? && !p.suspend && Convertible(p.selector) && Calm(ticks) && |ticks| >= 45
    requires forall u | u in w.objects :: Fit(w.secrets, w.instance.value, w.objects[u]) && Convertible(OwnSelector(w.objects[u]))
    ensures Reconcile(p, State(w, ticks, [])).ok
    ensures var x := Reconcile(p, State(w, ticks, [])).s.w;
            && WF(x) && x.nextUid == 2 && x.arrangement == []
            && (forall u | u in x.objects :: u in w.objects && Same(p, w.objects[u], x.objects[u]))
  {
    SoundIfAllFit(p, w);
    FewPassCalls(p, w);
    PassCompletesExactly(p, w, ticks);
    QuietPassIsolates(p, w, ticks);
  }

  /** Where the organization is listed, both it and the feature are. */
  lemma BothListed(p: Params, w: World)
    requires WF(w) && p.selector == Selecting(OURS) && 0 in w.objects && 1 in w.objects
    requires w.objects[0].labels == OURS && w.objects[0].spec == Owning("a").spec
    requires w.objects[1].labels == THEIRS && w.objects[1].spec == FEATURE.spec
    ensures Listed(p, w, w.objects[0]) && Listed(p, w, w.objects[1])
    ensures Reachable(p, w, w.objects[1])
  {
    LabelsSelect();
    assert Owner(p, w.objects[0], w.objects[1]);
    ReachableIsListed(p, w, w.objects[1]);
  }

  /** The cluster with the organization and the feature. */
  const CREATED := NEW.(objects := map[0 := Owning("a"), 1 := FEATURE], nextUid := 2)

  lemma TwoEvents(p: Params, w: World, a: Event, b: Event)
    ensures AppliedAll(p, w, [a, b]) == Applied(p, Applied(p, w, a), b)
  {
    assert [a, b][1..] == [b] && [b][1..] == [];
    assert AppliedAll(p, Applied(p, w, a), [b]) == AppliedAll(p, Applied(p, Applied(p, w, a), b), []);
  }

  lemma Created(p: Params)
    ensures AppliedAll(p, NEW, [Create(Owning("a")), Create(FEATURE)]) == CREATED
  {
    var one := NEW.(objects := map[0 := Owning("a")], nextUid := 1);
    KeysDiffer();
    TwoEvents(p, NEW, Create(Owning("a")), Create(FEATURE));
    assert Applied(p, NEW, Create(Owning("a"))) == one;
    assert one.objects[0].Key() != FEATURE.Key();
    assert one.objects[1 := FEATURE] == map[0 := Owning("a"), 1 := FEATURE];
    assert Applied(p, one, Create(FEATURE)) == CREATED;
  }

  lemma NewlyFit(secrets: Secrets, i: Instance)
    ensures Fit(secrets, i, FEATURE) && Convertible(OwnSelector(FEATURE))
    ensures Fit(secrets, i, Owning("a")) && Convertible(OwnSelector(Owning("a")))
    ensures SettleCalls(FEATURE) == 2 && SettleCalls(Owning("a")) == 2
    ensures Owning("a").Kind() == OrganizationKind && FEATURE.Kind() == FeatureKind
  {
  }

  lemma CreatedIsSmall()
    ensures Small(CREATED)
  {
    KeysDiffer();
    NewlyFit(map[], CREATED.instance.value);
  }

  lemma CreatedIsFit()
    ensures forall u | u in CREATED.objects :: Fit(CREATED.secrets, CREATED.instance.value, CREATED.objects[u]) && Convertible(OwnSelector(CREATED.objects[u]))
  {
    NewlyFit(CREATED.secrets, CREATED.instance.value);
  }

  lemma HoldsAfter(p: Params, o: Object, o': Object)
    requires Same(p, o, o') && o.finalizers == [] && Carries(p, o')
    ensures Holding(p, o', o)
  {
    assert Without([], p.finalizer) == [];
  }

  /** What a complete pass leaves of one object. */
  lemma ObjectAfterPass(p: Params, w: World, ticks: seq<Tick>, u: nat)
    requires QuietTicks(ticks) && WF(w) && w.instance.Some? && !p.suspend && Reconcile(p, State(w, ticks, [])).ok && u in w.objects
    ensures var o, x := w.objects[u], Reconcile(p, State(w, ticks, [])).s.w;
            && (u in x.objects <==> !(Listed(p, w, o) && Dangling(p, o)))
            && (u in x.objects ==>
                  (Carries(p, x.objects[u]) <==> if Listed(p, w, o) then !Retiring(w.instance.value, o) else Carries(p, o)))
  {
    FinalizersAfterPass(p, w, ticks);
  }

  /** A listed live object after a complete pass. */
  lemma LiveStays(p: Params, w: World, ticks: seq<Tick>, u: nat)
    requires QuietTicks(ticks) && WF(w) && w.instance.Some? && !p.suspend && Reconcile(p, State(w, ticks, [])).ok
    requires u in w.objects && Listed(p, w, w.objects[u]) && !Retiring(w.instance.value, w.objects[u])
    ensures var x := Reconcile(p, State(w, ticks, [])).s.w;
            u in x.objects && Same(p, w.objects[u], x.objects[u]) && Carries(p, x.objects[u])
  {
    ObjectAfterPass(p, w, ticks, u);
    QuietPassIsolates(p, w, ticks);
  }

  lemma InstanceStays(p: Params, w: World, ticks: seq<Tick>)
    requires QuietTicks(ticks) && WF(w) && w.instance.Some? && !p.suspend && Reconcile(p, State(w, ticks, [])).ok
    requires w.instance == Some(Instance([], false)) || w.instance == Some(Instance([FinalizerNames.FINALIZER], false))
    ensures Reconcile(p, State(w, ticks, [])).s.w.instance == Some(Instance([FinalizerNames.FINALIZER], false))
  {
    InstanceAfterPass(p, w, ticks);
    assert With([], FinalizerNames.FINALIZER) == [FinalizerNames.FINALIZER];
  }

  ghost predicate Held(p: Params, x: World, a: Object, b: Object) {
    && WF(x) && x.nextUid == 2 && x.arrangement == [] && x.instance == Some(Instance([FinalizerNames.FINALIZER], false))
    && x.objects.Keys == {0, 1} && Holding(p, x.objects[0], a) && Holding(p, x.objects[1], b)
  }

  lemma LiveHolds(p: Params, w: World, ticks: seq<Tick>, u: nat)
    requires QuietTicks(ticks) && WF(w) && w.instance.Some? && !p.suspend && Reconcile(p, State(w, ticks, [])).ok
    requires u in w.objects && Listed(p, w, w.objects[u]) && !Retiring(w.instance.value, w.objects[u]) && w.objects[u].finalizers == []
    ensures var x := Reconcile(p, State(w, ticks, [])).s.w; u in x.objects && Holding(p, x.objects[u], w.objects[u])
  {
    LiveStays(p, w, ticks, u);
    HoldsAfter(p, w.objects[u], Reconcile(p, State(w, ticks, [])).s.w.objects[u]);
  }

  lemma PairHolds(p: Params, w: World, ticks: seq<Tick>, a: Object, b: Object)
    requires w.objects.Keys == {0, 1} && w.objects[0] == a && w.objects[1] == b && a.finalizers == [] && b.finalizers == [] && !a.deleting && !b.deleting
    requires Small(w) && w.instance == Some(Instance([], false)) && Listed(p, w, a) && Listed(p, w, b)
    requires QuietTicks(ticks) && !p.suspend && Reconcile(p, State(w, ticks, [])).ok
    ensures Held(p, Reconcile(p, State(w, ticks, [])).s.w, a, b)
  {
    QuietPassIsolates(p, w, ticks);
    LiveHolds(p, w, ticks, 0);
    LiveHolds(p, w, ticks, 1);
    InstanceStays(p, w, ticks);
  }

  lemma CreatedObjects()
    ensures CREATED.objects.Keys == {0, 1} && CREATED.objects[0] == Owning("a") && CREATED.objects[1] == FEATURE
    ensures CREATED.instance == Some(Instance([], false))
  {
  }

  /** After the first pass both hold the finalizer, and so does the instance. */
  lemma BothHold(p: Params, ticks: seq<Tick>)
    requires p.selector == Selecting(OURS) && !p.suspend && Calm(ticks) && |ticks| >= 45
    ensures Reconcile(p, State(CREATED, ticks, [])).ok && Held(p, Reconcile(p, State(CREATED, ticks, [])).s.w, Owning("a"), FEATURE)
  {
    CreatedIsSmall();
    CreatedIsFit();
    SmallPass(p, CREATED, ticks);
    BothListed(p, CREATED);
    CreatedObjects();
    PairHolds(p, CREATED, ticks, Owning("a"), FEATURE);
  }

  /** Being held or deleted makes nothing unfit. */
  lemma StillFit(secrets: Secrets, i: Instance, o: Object, base: Object)
    requires o == base.(finalizers := o.finalizers, deleting := o.deleting) && Fit(secrets, Instance([], false), base) && !base.deleting
    ensures Fit(secrets, i, o) && OwnSelector(o) == OwnSelector(base) && SettleCalls(o) == SettleCalls(base) && o.Key() == base.Key()
  {
    assert o.spec == base.spec;
    assert Mergeable(secrets, o) == Mergeable(secrets, base);
  }

  /** A deleted organization that only this instance keeps, and a live feature, before and after a pass. */
  lemma DanglingGoes(p: Params, v: World, ticks: seq<Tick>, b: Object)
    requires WF(v) && v.objects.Keys == {0, 1} && v.instance == Some(Instance([FinalizerNames.FINALIZER], false))
    requires Listed(p, v, v.objects[0]) && Dangling(p, v.objects[0]) && Listed(p, v, v.objects[1])
    requires Holding(p, v.objects[1], b) && !b.deleting
    requires QuietTicks(ticks) && !p.suspend && Reconcile(p, State(v, ticks, [])).ok
    ensures var x := Reconcile(p, State(v, ticks, [])).s.w;
            && x.objects.Keys == {1} && Holding(p, x.objects[1], b) && x.instance == Some(Instance([FinalizerNames.FINALIZER], false))
  {
    QuietPassIsolates(p, v, ticks);
    ObjectAfterPass(p, v, ticks, 0);
    LiveStays(p, v, ticks, 1);
    InstanceStays(p, v, ticks);
  }

  ghost predicate OrganizationDeleted(p: Params, v: World) {
    && WF(v) && v.nextUid == 2 && v.arrangement == [] && v.instance == Some(Instance([FinalizerNames.FINALIZER], false))
    && v.objects.Keys == {0, 1} && Holding(p, v.objects[1], FEATURE)
    && v.objects[0] == Owning("a").(finalizers := v.objects[0].finalizers, deleting := true) && Dangling(p, v.objects[0])
  }

  lemma DeletingTheOrganization(p: Params, w: World)
    requires Held(p, w, Owning("a"), FEATURE)
    ensures OrganizationDeleted(p, Applied(p, w, Delete(OrganizationKind, 0)))
  {
    NewlyFit(w.secrets, w.instance.value);
    var o := w.objects[0];
    assert o.Kind() == OrganizationKind && o.finalizers != [];
    DeletingKeepsKeys(w, 0);
  }

  lemma DeletingKeepsKeys(w: World, u: nat)
    requires WF(w) && u in w.objects && w.objects[u].finalizers != []
    ensures WF(w.(objects := w.objects[u := w.objects[u].(deleting := true)]))
  {
    assert w.objects[u].(deleting := true).Key() == w.objects[u].Key();
  }

  lemma PairIsFit(p: Params, v: World)
    requires v.objects.Keys <= {0, 1} && v.nextUid == 2 && v.arrangement == [] && WF(v) && v.instance.Some?
    requires 0 in v.objects ==> v.objects[0] == Owning("a").(finalizers := v.objects[0].finalizers, deleting := v.objects[0].deleting)
    requires 1 in v.objects ==> v.objects[1] == FEATURE.(finalizers := v.objects[1].finalizers, deleting := v.objects[1].deleting)
    ensures Small(v) && forall u | u in v.objects :: Fit(v.secrets, v.instance.value, v.objects[u]) && Convertible(OwnSelector(v.objects[u]))
  {
    NewlyFit(v.secrets, Instance([], false));
    forall u | u in v.objects
      ensures SettleCalls(v.objects[u]) == 2 && Fit(v.secrets, v.instance.value, v.objects[u]) && Convertible(OwnSelector(v.objects[u]))
    {
      StillFit(v.secrets, v.instance.value, v.objects[u], if u == 0 then Owning("a") else FEATURE);
    }
  }

  ghost predicate FeatureLeft(p: Params, x: World) {
    && WF(x) && x.nextUid == 2 && x.arrangement == [] && x.instance == Some(Instance([FinalizerNames.FINALIZER], false))
    && x.objects.Keys == {1} && Holding(p, x.objects[1], FEATURE)
  }

  /** Deleted, the organization goes with the next pass; the feature stays. */
  lemma OrganizationGoes(p: Params, v: World, ticks: seq<Tick>)
    requires OrganizationDeleted(p, v) && p.selector == Selecting(OURS) && !p.suspend && Calm(ticks) && |ticks| >= 45
    ensures Reconcile(p, State(v, ticks, [])).ok && FeatureLeft(p, Reconcile(p, State(v, ticks, [])).s.w)
  {
    PairIsFit(p, v);
    SmallPass(p, v, ticks);
    BothListed(p, v);
    DanglingGoes(p, v, ticks, FEATURE);
  }

  ghost predicate Stranded(p: Params, x: World) {
    x.instance.None? && x.objects.Keys == {1} && Holding(p, x.objects[1], FEATURE)
  }

  lemma UnlistedKeeps(p: Params, v: World, ticks: seq<Tick>, b: Object)
    requires WF(v) && v.objects.Keys == {1} && v.instance == Some(Instance([FinalizerNames.FINALIZER], true))
    requires !Listed(p, v, v.objects[1]) && Holding(p, v.objects[1], b)
    requires QuietTicks(ticks) && !p.suspend && Reconcile(p, State(v, ticks, [])).ok
    ensures var x := Reconcile(p, State(v, ticks, [])).s.w;
            x.instance.None? && x.objects.Keys == {1} && Holding(p, x.objects[1], b)
  {
    QuietPassIsolates(p, v, ticks);
    ObjectAfterPass(p, v, ticks, 1);
    InstanceAfterPass(p, v, ticks);
    assert Without([FinalizerNames.FINALIZER], FinalizerNames.FINALIZER) == [];
  }

  /** The instance goes with the pass after it is deleted, and leaves the feature holding its finalizer. */
  lemma InstanceGoes(p: Params, w: World, ticks: seq<Tick>)
    requires FeatureLeft(p, w) && p.selector == Selecting(OURS) && !p.suspend && Calm(ticks) && |ticks| >= 45
    ensures var v := Applied(p, w, DeleteInstance);
            Reconcile(p, State(v, ticks, [])).ok && Stranded(p, Reconcile(p, State(v, ticks, [])).s.w)
  {
    var v := Applied(p, w, DeleteInstance);
    assert v == w.(instance := Some(Instance([FinalizerNames.FINALIZER], true)));
    PairIsFit(p, v);
    SmallPass(p, v, ticks);
    NewlyFit(v.secrets, Instance([], false));
    OrganizationsIn(p, v);
    FirstOwnerExists(ListedOrganizations(p, v), v.objects[1]);
    UnlistedKeeps(p, v, ticks, FEATURE);
  }

  lemma SixRounds(p: Params, w: World, a: Round, b: Round, c: Round, d: Round, e: Round, f: Round)
    ensures Run(p, w, [a, b, c, d, e, f]) == After(p, After(p, After(p, After(p, After(p, After(p, w, a), b), c), d), e), f)
  {
    RunAppend(p, w, [a, b], [c, d, e, f]);
    TwoRounds(p, w, a, b);
    var v := Run(p, w, [a, b]);
    assert [a, b, c, d, e, f] == [a, b] + [c, d, e, f] && [c, d, e, f] == [c, d] + [e, f];
    RunAppend(p, v, [c, d], [e, f]);
    TwoRounds(p, v, c, d);
    TwoRounds(p, Run(p, v, [c, d]), e, f);
  }

  lemma TwoRounds(p: Params, w: World, a: Round, b: Round)
    ensures Run(p, w, [a, b]) == After(p, After(p, w, a), b)
  {
    assert [a, b][1..] == [b] && [b][1..] == [];
    assert Run(p, After(p, w, a), [b]) == Run(p, After(p, After(p, w, a), b), []);
  }

  lemma OneEvent(p: Params, w: World, e: Event)
    ensures AppliedAll(p, w, [e]) == Applied(p, w, e)
  {
    assert [e][1..] == [];
  }

  /** A run whose passes all complete, from a cluster with nothing in it to one where the instance is gone and a
      live feature still holds its finalizer: with prune or without. */
  lemma OrganizationFirstStrands(prune: bool, parse: Parse, scrypt: PasswordHash.Derivation, ticks: seq<Tick>)
    requires Calm(ticks) && |ticks| >= 45
    ensures var p := ParamsFor(prune, parse, scrypt); Stranded(p, Run(p, NEW, OrganizationFirst(ticks)))
  {
    var p := ParamsFor(prune, parse, scrypt);
    var rounds := OrganizationFirst(ticks);
    SixRounds(p, NEW, rounds[0], rounds[1], rounds[2], rounds[3], rounds[4], rounds[5]);
    Created(p);
    BothHold(p, ticks);
    var x := After(p, CREATED, rounds[1]);
    OneEvent(p, x, Delete(OrganizationKind, 0));
    DeletingTheOrganization(p, x);
    OrganizationGoes(p, After(p, x, rounds[2]), ticks);
    var y := After(p, After(p, x, rounds[2]), rounds[3]);
    OneEvent(p, y, DeleteInstance);
    InstanceGoes(p, y, ticks);
  }

  /** Of the resources a pass reaches, a change enqueues the instance exactly if it is a user or an organization
      or has the instance's own label pairs. */
  lemma ReachedIsTriggeredExactly(p: Params, w: World, u: nat, instances: seq<NamedInstance>, i: NamedInstance)
    requires u in w.objects && Reachable(p, w, w.objects[u])
    requires i in instances && i.selector == p.selector && forall j | j in instances && j.namespace == i.namespace && j.name == i.name :: j == i
    ensures var o := w.objects[u];
            Request(i.namespace, i.name) in Requests(instances, i.namespace, o.labels) <==>
            !Nested(o) || p.selector.None? || HasPairs(o.labels, p.selector.value.matchLabels)
  {
    TriggerCompleteness(instances, i.namespace, w.objects[u].labels);
    TriggerExcess(p.selector, w.objects[u].labels);
  }

  lemma NotRequested(namespace: string, name: string)
    ensures Requests([NamedInstance(namespace, name, Selecting(OURS))], namespace, THEIRS) == []
  {
    LabelsSelect();
    var i := NamedInstance(namespace, name, Selecting(OURS));
    assert [i][..0] == [] && !Triggers(i.selector, THEIRS);
    assert Enqueued(i, namespace, THEIRS) == [];
  }

  lemma FeatureIsStored(p: Params, w: World, ticks: seq<Tick>, u: nat)
    requires QuietTicks(ticks) && WF(w) && w.instance.Some? && !w.instance.value.deleting && !p.suspend && Reconcile(p, State(w, ticks, [])).ok
    requires u in w.objects && !w.objects[u].deleting && Listed(p, w, w.objects[u]) && w.objects[u].spec.FeatureSpec?
    ensures AsFeature(Get(Reconcile(p, State(w, ticks, [])).s.w.docs, w.objects[u].Key())).Some?
  {
    CompletePassDeclares(p, State(w, ticks, []), u);
  }

  /** And there is one it misses: a pass reaches the feature and stores its document, but a change of the feature
      enqueues nothing. */
  lemma ReconciledButNotTriggered(prune: bool, parse: Parse, scrypt: PasswordHash.Derivation, ticks: seq<Tick>, namespace: string, name: string)
    requires Calm(ticks) && |ticks| >= 45
    ensures var p := ParamsFor(prune, parse, scrypt);
            var o, x := CREATED.objects[1], Reconcile(p, State(CREATED, ticks, [])).s.w;
            && Reachable(p, CREATED, o) && AsFeature(Get(x.docs, o.Key())).Some?
            && Requests([NamedInstance(namespace, name, p.selector)], namespace, o.labels) == []
  {
    var p := ParamsFor(prune, parse, scrypt);
    CreatedIsSmall();
    CreatedIsFit();
    SmallPass(p, CREATED, ticks);
    BothListed(p, CREATED);
    FeatureIsStored(p, CREATED, ticks, 1);
    NotRequested(namespace, name);
  }
}
