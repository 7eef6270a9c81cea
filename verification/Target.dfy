/**
 The target of a pass, document by document, and what follows from a complete pass reaching it: passes cut
 short do not move the target, so they can be repeated at will.
 */
module Target {
  import opened Wrappers
  import opened Documents
  import opened Selectors
  import opened Resources
  import opened FeatureTranslation
  import opened Worlds
  import opened Pass
  import opened NoOrphans
  import opened NoStrands
  import opened Effects
  import opened Quiet
  import FinalizerNames

  /** A user a pass releases for good before it looks at any organization. */
  predicate Doomed(p: Params, o: Object) {
    Picked(o, UserKind, p.selector) && Dangling(p, o)
  }

  function Stayers(p: Params, objects: map<nat, Object>): map<nat, Object> {
    map u | u in objects && !Doomed(p, objects[u]) :: objects[u]
  }

  function ListedOrganizations(p: Params, w: World): seq<Object> {
    List(w.objects, Order(w), OrganizationKind, p.selector)
  }

  /** The document a complete pass leaves for the object, but for dates and random parts. */
  function TargetOf(p: Params, w: World, i: Instance, o: Object): Option<Doc> {
    var d := Look(w.docs, o.Key());
    if o.spec.FeatureSpec? || o.spec.ClientSpec? then Folded(p, w.secrets, i, ListedOrganizations(p, w), o, d)
    else if Selects(p.selector, o.labels) then
      Effect(p, w.secrets, i, "", MembersFor(Stayers(p, w.objects), Order(w), o), o, d)
    else d
  }

  /** A complete pass has to settle the object. */
  ghost predicate Listed(p: Params, w: World, o: Object) {
    if Nested(o) then FirstOwner(ListedOrganizations(p, w), o).Some? else Selects(p.selector, o.labels)
  }

  lemma ComputedSame(p: Params, secrets: Secrets, organization: string, members: seq<Member>, o: Object, o': Object, d: Option<Doc>, e: Entropy)
    requires o' == o.(finalizers := o'.finalizers)
    ensures Computed(p, secrets, organization, members, o', d, e) == Computed(p, secrets, organization, members, o, d, e)
  {
    assert o'.spec == o.spec && o'.Id() == o.Id();
    match o.spec
    case UserSpec(_, _, _, _) =>
      assert UserOf(p, secrets, o', AsUser(d), e.salt) == UserOf(p, secrets, o, AsUser(d), e.salt);
    case OrganizationSpec(_, _, _, _, _) =>
      assert OrganizationOf(o', members) == OrganizationOf(o, members);
    case FeatureSpec(_, _, _, _, _, _) =>
      assert Translated(o', OWNER, organization, p.parse) == Translated(o, OWNER, organization, p.parse);
    case ClientSpec(_, _, _, _, _, _, _, _, _, _) =>
      assert ConnectionOf(secrets, o', organization) == ConnectionOf(secrets, o, organization);
  }

  lemma EffectSame(p: Params, secrets: Secrets, i: Instance, organization: string, members: seq<Member>, o: Object, o': Object, d: Option<Doc>)
    requires o' == o.(finalizers := o'.finalizers)
    ensures Effect(p, secrets, i, organization, members, o', d) == Effect(p, secrets, i, organization, members, o, d)
  {
    ComputedSame(p, secrets, organization, members, o, o', d, STILL);
  }

  lemma {:induction false} FoldedSame(p: Params, secrets: Secrets, i: Instance, orgs: seq<Object>, o: Object, o': Object, d: Option<Doc>)
    requires o' == o.(finalizers := o'.finalizers)
    ensures Folded(p, secrets, i, orgs, o', d) == Folded(p, secrets, i, orgs, o, d)
    ensures FirstOwner(orgs, o') == FirstOwner(orgs, o)
    decreases |orgs|
  {
    if orgs != [] {
      EffectSame(p, secrets, i, orgs[0].Id(), [], o, o', d);
      FoldedSame(p, secrets, i, orgs[1..], o, o', if Selects(OwnSelector(orgs[0]), o.labels) then Effect(p, secrets, i, orgs[0].Id(), [], o, d) else d);
    }
  }

  /** A feature or client after reconciling what the organizations own, completed or cut short. */
  ghost predicate OwnedSettled(p: Params, w: World, w': World, i: Instance, orgs: seq<Object>, o: Object, ok: bool) {
    var before, after := Look(w.docs, o.Key()), Look(w'.docs, o.Key());
    && (exists n: nat | n <= |orgs| :: after == Folded(p, w.secrets, i, orgs[..n], o, before))
    && (ok || o.uid !in w'.objects ==> after == Folded(p, w.secrets, i, orgs, o, before))
    && (ok && !Retiring(i, o) && FirstOwner(orgs, o).Some? ==> Mergeable(w.secrets, o))
    && (o.uid !in w'.objects ==> Retiring(i, o))
    && (FirstOwner(orgs, o).None? ==> o.uid in w'.objects && w'.objects[o.uid] == o && Get(w'.docs, o.Key()) == Get(w.docs, o.Key()))
    && (Retiring(i, o) && !p.prune ==> Get(w'.docs, o.Key()) == Get(w.docs, o.Key()))
  }

  /** What the selector picks is settled once, everything else left alone. */
  ghost predicate StepSettled(p: Params, w: World, w': World, i: Instance, selector: Option<LabelSelector>, id: string, o: Object, ok: bool) {
    if Selects(selector, o.labels) then DocSettled(p, w, w', i, id, o, ok)
    else o.uid in w'.objects && w'.objects[o.uid] == o && Get(w'.docs, o.Key()) == Get(w.docs, o.Key())
  }

  /** No object of the kind has the key. */
  ghost predicate Unkeyed(w: World, kind: Kind, k: DocKey) {
    forall u | u in w.objects && w.objects[u].Kind() == kind :: w.objects[u].Key() != k
  }

  lemma UnkeyedLater(p: Params, w: World, w': World, kind: Kind, k: DocKey)
    requires Isolates(p, w, w') && Unkeyed(w, kind, k)
    ensures Unkeyed(w', kind, k)
  {
  }

  ghost predicate KindSettled(p: Params, w: World, w': World, i: Instance, kind: Kind, selector: Option<LabelSelector>, id: string, ok: bool) {
    && (forall u {:trigger StepSettled(p, w, w', i, selector, id, w.objects[u], ok)} | u in w.objects && w.objects[u].Kind() == kind :: StepSettled(p, w, w', i, selector, id, w.objects[u], ok))
    && (forall u | u in w.objects && w.objects[u].Kind() != kind :: u in w'.objects && w'.objects[u] == w.objects[u])
    && (forall k | Unkeyed(w, kind, k) :: Get(w'.docs, k) == Get(w.docs, k))
  }

  lemma ListingSettlesKind(p: Params, w: World, w': World, i: Instance, kind: Kind, selector: Option<LabelSelector>, id: string, ok: bool)
    requires WF(w)
    requires var items := List(w.objects, Order(w), kind, selector);
             Untouched(w, w', Uids(items)) && DocsSettled(p, w, w', i, id, items, ok)
    ensures KindSettled(p, w, w', i, kind, selector, id, ok)
  {
    ListMembers(w, kind, selector);
    forall u | u in w.objects && w.objects[u].Kind() == kind
      ensures StepSettled(p, w, w', i, selector, id, w.objects[u], ok)
    {
      ListingSettlesOne(p, w, w', i, kind, selector, id, w.objects[u], ok);
    }
    var items := List(w.objects, Order(w), kind, selector);
    forall k | Unkeyed(w, kind, k)
      ensures Get(w'.docs, k) == Get(w.docs, k)
    {
      assert forall x | x in items :: x.Key() != k;
    }
  }

  lemma ListingSettlesOne(p: Params, w: World, w': World, i: Instance, kind: Kind, selector: Option<LabelSelector>, id: string, o: Object, ok: bool)
    requires WF(w) && o.uid in w.objects && w.objects[o.uid] == o && o.Kind() == kind
    requires var items := List(w.objects, Order(w), kind, selector);
             Untouched(w, w', Uids(items)) && DocsSettled(p, w, w', i, id, items, ok)
    ensures StepSettled(p, w, w', i, selector, id, o, ok)
  {
    var items := List(w.objects, Order(w), kind, selector);
    ListMembers(w, kind, selector);
    if Selects(selector, o.labels) {
      assert o in items;
    } else {
      assert o.uid !in Uids(items);
      assert forall x | x in items :: x.Key() != o.Key();
    }
  }

  lemma KindStep(p: Params, s: State, i: Instance, kind: Kind, selector: Option<LabelSelector>, id: string)
    requires QuietTicks(s.ticks) && WF(s.w)
    ensures var r := ReconcileKind(p, s, i, kind, selector, id);
            && QuietTicks(r.s.ticks) && WF(r.s.w) && r.s.w.instance == s.w.instance && Isolates(p, s.w, r.s.w)
            && KindSettled(p, s.w, r.s.w, i, kind, selector, id, r.ok)
  {
    ReconcileKindIsQuiet(p, s, i, kind, selector, id);
    var r := ReconcileKind(p, s, i, kind, selector, id);
    ListingSettlesKind(p, s.w, r.s.w, i, kind, selector, id, r.ok);
  }

  function ReconcileOrganization(p: Params, s: State, i: Instance, org: Object): Outcome
    requires org.spec.OrganizationSpec?
  {
    var f := ReconcileKind(p, s, i, FeatureKind, org.spec.resourceSelector, org.Id());
    if !f.ok then f else ReconcileKind(p, f.s, i, ClientKind, org.spec.resourceSelector, org.Id())
  }

  ghost predicate OthersAlone(w: World, w': World) {
    && (forall u | u in w.objects && !Nested(w.objects[u]) :: u in w'.objects && w'.objects[u] == w.objects[u])
    && (forall k | Unkeyed(w, FeatureKind, k) && Unkeyed(w, ClientKind, k) :: Get(w'.docs, k) == Get(w.docs, k))
  }

  /** The second kind leaves what the first settled alone. */
  lemma StepKept(p: Params, w: World, f: World, c: World, i: Instance, selector: Option<LabelSelector>, id: string, o: Object, ok: bool)
    requires StepSettled(p, w, f, i, selector, id, o, true) && Isolates(p, f, c)
    requires Get(c.docs, o.Key()) == Get(f.docs, o.Key())
    requires o.uid in f.objects ==> o.uid in c.objects && c.objects[o.uid] == f.objects[o.uid]
    ensures StepSettled(p, w, c, i, selector, id, o, ok)
  {
  }

  lemma StepDelayed(p: Params, w: World, f: World, c: World, i: Instance, selector: Option<LabelSelector>, id: string, o: Object, ok: bool)
    requires Nested(o) && Isolates(p, w, f) && Get(f.docs, o.Key()) == Get(w.docs, o.Key())
    requires o.uid in f.objects && f.objects[o.uid] == o && o.uid in w.objects
    requires StepSettled(p, f, c, i, selector, id, o, ok)
    ensures StepSettled(p, w, c, i, selector, id, o, ok)
  {
  }

  ghost predicate OrganizationSettled(p: Params, w: World, w': World, i: Instance, org: Object, ok: bool) {
    && (forall u {:trigger StepSettled(p, w, w', i, OwnSelector(org), org.Id(), w.objects[u], ok)} | u in w.objects && Nested(w.objects[u]) :: StepSettled(p, w, w', i, OwnSelector(org), org.Id(), w.objects[u], ok))
    && OthersAlone(w, w')
  }

  lemma FeaturesOnly(p: Params, w: World, f: World, i: Instance, org: Object)
    requires WF(w) && KindSettled(p, w, f, i, FeatureKind, OwnSelector(org), org.Id(), false)
    ensures OrganizationSettled(p, w, f, i, org, false)
  {
  }

  /** What the clients' turn leaves of a feature. */
  lemma FeatureKept(p: Params, w: World, f: World, c: World, i: Instance, selector: Option<LabelSelector>, id: string, o: Object, ok: bool)
    requires WF(w) && Isolates(p, w, f) && o.uid in w.objects && w.objects[o.uid] == o && o.Kind() == FeatureKind
    requires KindSettled(p, w, f, i, FeatureKind, selector, id, true) && KindSettled(p, f, c, i, ClientKind, selector, id, ok)
    ensures StepSettled(p, w, f, i, selector, id, o, true)
    ensures Get(c.docs, o.Key()) == Get(f.docs, o.Key())
    ensures o.uid in f.objects ==> o.uid in c.objects && c.objects[o.uid] == f.objects[o.uid]
  {
    assert Unkeyed(f, ClientKind, o.Key());
    assert o.uid in f.objects ==> Same(p, o, f.objects[o.uid]);
  }

  /** And what the features' turn leaves of a client. */
  lemma ClientKept(p: Params, w: World, f: World, c: World, i: Instance, selector: Option<LabelSelector>, id: string, o: Object, ok: bool)
    requires o.uid in w.objects && w.objects[o.uid] == o && o.Kind() == ClientKind
    requires KindSettled(p, w, f, i, FeatureKind, selector, id, true) && KindSettled(p, f, c, i, ClientKind, selector, id, ok)
    ensures Get(f.docs, o.Key()) == Get(w.docs, o.Key()) && o.uid in f.objects && f.objects[o.uid] == o
    ensures StepSettled(p, f, c, i, selector, id, o, ok)
  {
    assert Unkeyed(w, FeatureKind, o.Key());
  }

  lemma FeatureThenSettled(p: Params, w: World, f: World, c: World, i: Instance, selector: Option<LabelSelector>, id: string, o: Object, ok: bool)
    requires WF(w) && Isolates(p, w, f) && Isolates(p, f, c) && o.uid in w.objects && w.objects[o.uid] == o && o.Kind() == FeatureKind
    requires KindSettled(p, w, f, i, FeatureKind, selector, id, true) && KindSettled(p, f, c, i, ClientKind, selector, id, ok)
    ensures StepSettled(p, w, c, i, selector, id, o, ok)
  {
    FeatureKept(p, w, f, c, i, selector, id, o, ok);
    StepKept(p, w, f, c, i, selector, id, o, ok);
  }

  lemma ClientThenSettled(p: Params, w: World, f: World, c: World, i: Instance, selector: Option<LabelSelector>, id: string, o: Object, ok: bool)
    requires Isolates(p, w, f) && o.uid in w.objects && w.objects[o.uid] == o && o.Kind() == ClientKind
    requires KindSettled(p, w, f, i, FeatureKind, selector, id, true) && KindSettled(p, f, c, i, ClientKind, selector, id, ok)
    ensures StepSettled(p, w, c, i, selector, id, o, ok)
  {
    ClientKept(p, w, f, c, i, selector, id, o, ok);
    StepDelayed(p, w, f, c, i, selector, id, o, ok);
  }

  lemma NestedThenSettled(p: Params, w: World, f: World, c: World, i: Instance, selector: Option<LabelSelector>, id: string, o: Object, ok: bool)
    requires WF(w) && Isolates(p, w, f) && Isolates(p, f, c) && o.uid in w.objects && w.objects[o.uid] == o && Nested(o)
    requires KindSettled(p, w, f, i, FeatureKind, selector, id, true) && KindSettled(p, f, c, i, ClientKind, selector, id, ok)
    ensures StepSettled(p, w, c, i, selector, id, o, ok)
  {
    if o.Kind() == FeatureKind {
      FeatureThenSettled(p, w, f, c, i, selector, id, o, ok);
    } else {
      ClientThenSettled(p, w, f, c, i, selector, id, o, ok);
    }
  }

  lemma OthersThenOthers(p: Params, w: World, f: World, c: World, i: Instance, selector: Option<LabelSelector>, id: string, ok: bool)
    requires Isolates(p, w, f)
    requires KindSettled(p, w, f, i, FeatureKind, selector, id, true) && KindSettled(p, f, c, i, ClientKind, selector, id, ok)
    ensures OthersAlone(w, c)
  {
    forall k | Unkeyed(w, FeatureKind, k) && Unkeyed(w, ClientKind, k)
      ensures Get(c.docs, k) == Get(w.docs, k)
    {
      UnkeyedLater(p, w, f, ClientKind, k);
    }
    forall u | u in w.objects && !Nested(w.objects[u])
      ensures u in c.objects && c.objects[u] == w.objects[u]
    {
      assert u in f.objects && f.objects[u] == w.objects[u];
    }
  }

  lemma FeaturesThenClients(p: Params, w: World, f: World, c: World, i: Instance, org: Object, ok: bool)
    requires WF(w) && Isolates(p, w, f) && Isolates(p, f, c)
    requires KindSettled(p, w, f, i, FeatureKind, OwnSelector(org), org.Id(), true) && KindSettled(p, f, c, i, ClientKind, OwnSelector(org), org.Id(), ok)
    ensures OrganizationSettled(p, w, c, i, org, ok)
  {
    forall u | u in w.objects && Nested(w.objects[u])
      ensures StepSettled(p, w, c, i, OwnSelector(org), org.Id(), w.objects[u], ok)
    {
      NestedThenSettled(p, w, f, c, i, OwnSelector(org), org.Id(), w.objects[u], ok);
    }
    OthersThenOthers(p, w, f, c, i, OwnSelector(org), org.Id(), ok);
  }

  lemma OrganizationStep(p: Params, s: State, i: Instance, org: Object)
    requires QuietTicks(s.ticks) && WF(s.w) && org.spec.OrganizationSpec?
    ensures var r := ReconcileOrganization(p, s, i, org);
            && QuietTicks(r.s.ticks) && WF(r.s.w) && r.s.w.instance == s.w.instance && Isolates(p, s.w, r.s.w)
            && OrganizationSettled(p, s.w, r.s.w, i, org, r.ok)
  {
    KindStep(p, s, i, FeatureKind, org.spec.resourceSelector, org.Id());
    var f := ReconcileKind(p, s, i, FeatureKind, org.spec.resourceSelector, org.Id());
    var r := ReconcileOrganization(p, s, i, org);
    if f.ok {
      KindStep(p, f.s, i, ClientKind, org.spec.resourceSelector, org.Id());
      IsolatesTransitive(p, s.w, f.s.w, r.s.w);
      FeaturesThenClients(p, s.w, f.s.w, r.s.w, i, org, r.ok);
    } else {
      FeaturesOnly(p, s.w, f.s.w, i, org);
    }
  }

  /** The step at the head of the fold. */
  function Step(p: Params, secrets: Secrets, i: Instance, org: Object, o: Object, d: Option<Doc>): Option<Doc> {
    if Selects(OwnSelector(org), o.labels) then Effect(p, secrets, i, org.Id(), [], o, d) else d
  }

  /** One organization and then the rest, for an object still there in between. */
  lemma FoldExtends(p: Params, secrets: Secrets, i: Instance, orgs: seq<Object>, n: nat, o: Object, o': Object, before: Option<Doc>)
    requires n < |orgs| && o' == o.(finalizers := o'.finalizers)
    ensures var mid := Step(p, secrets, i, orgs[0], o, before);
            && Folded(p, secrets, i, orgs[1..][..n], o', mid) == Folded(p, secrets, i, orgs[..n + 1], o, before)
            && Folded(p, secrets, i, orgs[1..], o', mid) == Folded(p, secrets, i, orgs, o, before)
  {
    FoldUnrolls(p, secrets, i, orgs, n, o, o', before);
    FoldUnrolls(p, secrets, i, orgs, |orgs| - 1, o, o', before);
    assert orgs[1..][..|orgs| - 1] == orgs[1..] && orgs[..|orgs|] == orgs;
  }

  lemma FoldComposes(p: Params, w: World, a: World, r: World, i: Instance, orgs: seq<Object>, o: Object, o': Object, ok: bool)
    requires orgs != [] && Nested(o) && o'.uid == o.uid && o' == o.(finalizers := o'.finalizers)
    requires o.uid in a.objects && a.objects[o.uid] == o'
    requires StepSettled(p, w, a, i, OwnSelector(orgs[0]), orgs[0].Id(), o, true) && a.secrets == w.secrets
    requires OwnedSettled(p, a, r, i, orgs[1..], o', ok)
    ensures OwnedSettled(p, w, r, i, orgs, o, ok)
  {
    var before, mid, after := Look(w.docs, o.Key()), Look(a.docs, o.Key()), Look(r.docs, o.Key());
    assert o'.Key() == o.Key() && mid == Step(p, w.secrets, i, orgs[0], o, before);
    var n: nat :| n <= |orgs[1..]| && after == Folded(p, w.secrets, i, orgs[1..][..n], o', mid);
    FoldExtends(p, w.secrets, i, orgs, n, o, o', before);
    FoldUnrolls(p, w.secrets, i, orgs, n, o, o', before);
    assert after == Folded(p, w.secrets, i, orgs[..n + 1], o, before);
  }

  lemma FoldUnrolls(p: Params, secrets: Secrets, i: Instance, orgs: seq<Object>, n: nat, o: Object, o': Object, d: Option<Doc>)
    requires n < |orgs| && o' == o.(finalizers := o'.finalizers)
    ensures Folded(p, secrets, i, orgs[..n + 1], o, d) ==
            Folded(p, secrets, i, orgs[1..][..n], o', Step(p, secrets, i, orgs[0], o, d))
    ensures FirstOwner(orgs, o).None? ==> FirstOwner(orgs[1..], o').None?
    ensures FirstOwner(orgs, o).Some? && !Selects(OwnSelector(orgs[0]), o.labels) ==> FirstOwner(orgs[1..], o').Some?
  {
    FoldedSame(p, secrets, i, orgs[1..][..n], o, o', Step(p, secrets, i, orgs[0], o, d));
    FoldedSame(p, secrets, i, orgs[1..], o, o', d);
    assert orgs[..n + 1][1..] == orgs[1..][..n];
  }

  /** An object that went at the first organization: nothing after it matters. */
  lemma FoldEnds(p: Params, w: World, a: World, r: World, i: Instance, orgs: seq<Object>, o: Object, head: bool, ok: bool)
    requires orgs != [] && Nested(o) && o.uid in w.objects && o.uid !in a.objects && o.uid !in r.objects
    requires StepSettled(p, w, a, i, OwnSelector(orgs[0]), orgs[0].Id(), o, head)
    requires Get(r.docs, o.Key()) == Get(a.docs, o.Key())
    ensures OwnedSettled(p, w, r, i, orgs, o, ok)
  {
    var before := Look(w.docs, o.Key());
    FoldedAfterEffect(p, w.secrets, i, orgs[1..], orgs[0].Id(), o, before);
    assert orgs[..|orgs|] == orgs;
  }

  /** A pass cut short at the first organization. */
  lemma FoldStops(p: Params, w: World, r: World, i: Instance, orgs: seq<Object>, o: Object)
    requires orgs != [] && Nested(o) && o.uid in w.objects && o.uid in r.objects
    requires StepSettled(p, w, r, i, OwnSelector(orgs[0]), orgs[0].Id(), o, false)
    ensures OwnedSettled(p, w, r, i, orgs, o, false)
  {
    var before, after := Look(w.docs, o.Key()), Look(r.docs, o.Key());
    if after == before {
      assert after == Folded(p, w.secrets, i, orgs[..0], o, before);
    } else {
      assert orgs[..1][1..] == [];
      assert after == Folded(p, w.secrets, i, orgs[..1], o, before);
    }
  }

  ghost predicate AllNestedSettled(p: Params, w: World, w': World, i: Instance, orgs: seq<Object>, ok: bool) {
    && OthersAlone(w, w')
    && forall u {:trigger OwnedSettled(p, w, w', i, orgs, w.objects[u], ok)} | u in w.objects && Nested(w.objects[u]) :: OwnedSettled(p, w, w', i, orgs, w.objects[u], ok)
  }

  lemma NestedIdle(p: Params, w: World, i: Instance)
    requires WF(w)
    ensures AllNestedSettled(p, w, w, i, [], true)
  {
    forall u | u in w.objects && Nested(w.objects[u])
      ensures OwnedSettled(p, w, w, i, [], w.objects[u], true)
    {
      var none: seq<Object> := [];
      assert Look(w.docs, w.objects[u].Key()) == Folded(p, w.secrets, i, none[..0], w.objects[u], Look(w.docs, w.objects[u].Key()));
    }
  }

  lemma GoneKey(p: Params, w: World, a: World, o: Object)
    requires WF(w) && Isolates(p, w, a) && o.uid in w.objects && w.objects[o.uid] == o && o.uid !in a.objects
    ensures forall u | u in a.objects :: a.objects[u].Key() != o.Key()
  {
  }

  lemma OwnedStepComposes(p: Params, w: World, a: World, r: World, i: Instance, orgs: seq<Object>, o: Object, ok: bool)
    requires WF(w) && o.uid in w.objects && w.objects[o.uid] == o && Nested(o) && orgs != []
    requires Isolates(p, w, a) && Isolates(p, a, r) && StepSettled(p, w, a, i, OwnSelector(orgs[0]), orgs[0].Id(), o, true)
    requires AllNestedSettled(p, a, r, i, orgs[1..], ok)
    ensures OwnedSettled(p, w, r, i, orgs, o, ok)
  {
    if o.uid !in a.objects {
      GoneKey(p, w, a, o);
      assert Get(r.docs, o.Key()) == Get(a.docs, o.Key());
      FoldEnds(p, w, a, r, i, orgs, o, true, ok);
    } else {
      FoldComposes(p, w, a, r, i, orgs, o, a.objects[o.uid], ok);
    }
  }

  lemma OwnedStepStops(p: Params, w: World, a: World, i: Instance, orgs: seq<Object>, o: Object)
    requires WF(w) && o.uid in w.objects && w.objects[o.uid] == o && Nested(o) && orgs != []
    requires StepSettled(p, w, a, i, OwnSelector(orgs[0]), orgs[0].Id(), o, false)
    ensures OwnedSettled(p, w, a, i, orgs, o, false)
  {
    if o.uid !in a.objects {
      FoldEnds(p, w, a, a, i, orgs, o, false, false);
    } else {
      FoldStops(p, w, a, i, orgs, o);
    }
  }

  lemma OthersCompose(p: Params, w: World, a: World, r: World)
    requires Isolates(p, w, a) && OthersAlone(w, a) && OthersAlone(a, r)
    ensures OthersAlone(w, r)
  {
  }

  lemma {:induction false} ReconcileOwnedIsQuiet(p: Params, s: State, i: Instance, orgs: seq<Object>)
    requires QuietTicks(s.ticks) && WF(s.w) && forall o | o in orgs :: o.spec.OrganizationSpec?
    ensures var r := ReconcileOwned(p, s, i, orgs);
            && QuietTicks(r.s.ticks) && WF(r.s.w) && r.s.w.instance == s.w.instance && Isolates(p, s.w, r.s.w)
            && AllNestedSettled(p, s.w, r.s.w, i, orgs, r.ok)
    decreases |orgs|
  {
    if orgs == [] {
      NestedIdle(p, s.w, i);
    } else {
      OrganizationStep(p, s, i, orgs[0]);
      var a := ReconcileOrganization(p, s, i, orgs[0]);
      var r := if a.ok then ReconcileOwned(p, a.s, i, orgs[1..]) else a;
      assert r == ReconcileOwned(p, s, i, orgs);
      if a.ok {
        ReconcileOwnedIsQuiet(p, a.s, i, orgs[1..]);
        IsolatesTransitive(p, s.w, a.s.w, r.s.w);
        OthersCompose(p, s.w, a.s.w, r.s.w);
        forall u | u in s.w.objects && Nested(s.w.objects[u])
          ensures OwnedSettled(p, s.w, r.s.w, i, orgs, s.w.objects[u], r.ok)
        {
          OwnedStepComposes(p, s.w, a.s.w, r.s.w, i, orgs, s.w.objects[u], r.ok);
        }
      } else {
        forall u | u in s.w.objects && Nested(s.w.objects[u])
          ensures OwnedSettled(p, s.w, a.s.w, i, orgs, s.w.objects[u], false)
        {
          OwnedStepStops(p, s.w, a.s.w, i, orgs, s.w.objects[u]);
        }
      }
    }
  }

  /** Where an object and its document stand after a pass, completed or cut short. */
  ghost predicate Progress(p: Params, w: World, w': World, i: Instance, o: Object, ok: bool) {
    var before, after := Look(w.docs, o.Key()), Look(w'.docs, o.Key());
    && (if Nested(o)
        then exists n: nat | n <= |ListedOrganizations(p, w)| :: after == Folded(p, w.secrets, i, ListedOrganizations(p, w)[..n], o, before)
        else after == before || after == TargetOf(p, w, i, o))
    && (ok || o.uid !in w'.objects ==> after == TargetOf(p, w, i, o))
    && (ok && !Retiring(i, o) && Listed(p, w, o) ==> Mergeable(w.secrets, o))
    && (o.uid !in w'.objects ==> Retiring(i, o))
    && (!Listed(p, w, o) ==> o.uid in w'.objects && w'.objects[o.uid] == o && Get(w'.docs, o.Key()) == Get(w.docs, o.Key()))
    && (Retiring(i, o) && !p.prune ==> Get(w'.docs, o.Key()) == Get(w.docs, o.Key()))
  }

  ghost predicate AllProgress(p: Params, w: World, w': World, i: Instance, ok: bool) {
    && (forall u {:trigger Progress(p, w, w', i, w.objects[u], ok)} | u in w.objects :: Progress(p, w, w', i, w.objects[u], ok))
    && (forall k | Unkeyed(w, UserKind, k) && Unkeyed(w, OrganizationKind, k) && Unkeyed(w, FeatureKind, k) && Unkeyed(w, ClientKind, k) ::
          Get(w'.docs, k) == Get(w.docs, k))
  }

  /** The three phases: users, organizations, and what organizations own. A phase not reached changes nothing. */
  ghost predicate Phases(p: Params, w: World, a: World, b: World, c: World, i: Instance, users: bool, orgs: bool, ok: bool) {
    && Isolates(p, w, a) && Isolates(p, a, b) && Isolates(p, b, c) && WF(w) && WF(a) && WF(b)
    && KindSettled(p, w, a, i, UserKind, p.selector, "", users)
    && KindSettled(p, a, b, i, OrganizationKind, p.selector, "", orgs)
    && AllNestedSettled(p, b, c, i, ListedOrganizations(p, a), ok)
    && (users ==> forall u | u in a.objects && Picked(a.objects[u], UserKind, p.selector) && Retiring(i, a.objects[u]) :: !Carries(p, a.objects[u]))
    && (orgs ==> users) && (ok ==> orgs)
    && (!users ==> b == a) && (!orgs ==> c == b)
  }

  lemma {:induction false} ListSame(a: map<nat, Object>, b: map<nat, Object>, order: seq<nat>, kind: Kind, selector: Option<LabelSelector>)
    requires forall u :: (u in a && a[u].Kind() == kind <==> u in b && b[u].Kind() == kind) && (u in a && a[u].Kind() == kind && u in b ==> a[u] == b[u])
    ensures List(a, order, kind, selector) == List(b, order, kind, selector)
  {
    if order != [] {
      ListSame(a, b, order[1..], kind, selector);
    }
  }

  /** A deleting user that does not carry is kept by another finalizer. */
  lemma StayerStays(p: Params, o: Object, o': Object)
    requires Same(p, o, o') && (o'.deleting ==> o'.finalizers != []) && (Picked(o', UserKind, p.selector) && o'.deleting ==> !Carries(p, o'))
    ensures !Doomed(p, o)
  {
    WithoutMembers(o'.finalizers, p.finalizer);
  }

  /** Once the users' phase is complete, exactly the users that stay are there. */
  lemma NoneDoomed(p: Params, w: World, a: World, i: Instance)
    requires WF(a) && Isolates(p, w, a)
    requires forall u | u in a.objects && Picked(a.objects[u], UserKind, p.selector) && Retiring(i, a.objects[u]) :: !Carries(p, a.objects[u])
    ensures forall u | u in a.objects && a.objects[u].Kind() == UserKind :: !Doomed(p, w.objects[u])
  {
    forall u | u in a.objects && a.objects[u].Kind() == UserKind
      ensures !Doomed(p, w.objects[u])
    {
      StayerStays(p, w.objects[u], a.objects[u]);
    }
  }

  lemma GoneWereDoomed(p: Params, w: World, a: World, i: Instance)
    requires WF(w) && Isolates(p, w, a) && KindSettled(p, w, a, i, UserKind, p.selector, "", true)
    ensures forall u | u in w.objects && w.objects[u].Kind() == UserKind && u !in a.objects :: Doomed(p, w.objects[u])
  {
    forall u | u in w.objects && w.objects[u].Kind() == UserKind && u !in a.objects
      ensures Doomed(p, w.objects[u])
    {
      GoneWasDoomed(p, w, a, i, w.objects[u]);
    }
  }

  lemma StayersStay(p: Params, w: World, a: World)
    requires Isolates(p, w, a)
    requires forall u | u in a.objects && a.objects[u].Kind() == UserKind :: !Doomed(p, w.objects[u])
    requires forall u | u in w.objects && w.objects[u].Kind() == UserKind && u !in a.objects :: Doomed(p, w.objects[u])
    ensures SameUsers(a.objects, Stayers(p, w.objects))
  {
  }

  lemma UsersStay(p: Params, w: World, a: World, i: Instance)
    requires WF(w) && WF(a) && Isolates(p, w, a) && !i.deleting && KindSettled(p, w, a, i, UserKind, p.selector, "", true)
    requires forall u | u in a.objects && Picked(a.objects[u], UserKind, p.selector) && Retiring(i, a.objects[u]) :: !Carries(p, a.objects[u])
    ensures SameUsers(a.objects, Stayers(p, w.objects))
  {
    NoneDoomed(p, w, a, i);
    GoneWereDoomed(p, w, a, i);
    StayersStay(p, w, a);
  }

  lemma GoneWasDoomed(p: Params, w: World, a: World, i: Instance, o: Object)
    requires Isolates(p, w, a) && KindSettled(p, w, a, i, UserKind, p.selector, "", true)
    requires o.uid in w.objects && w.objects[o.uid] == o && o.Kind() == UserKind && o.uid !in a.objects
    ensures Doomed(p, o)
  {
    assert StepSettled(p, w, a, i, p.selector, "", o, true);
  }

  /** Settling one kind keeps objects and documents of every other. */
  lemma OtherKindKept(p: Params, w: World, w': World, i: Instance, kind: Kind, ok: bool, k: DocKey)
    requires KindSettled(p, w, w', i, kind, p.selector, "", ok) && k.kind != kind
    ensures Get(w'.docs, k) == Get(w.docs, k)
    ensures forall u | u in w.objects && w.objects[u].Key() == k :: u in w'.objects && w'.objects[u] == w.objects[u]
  {
  }

  lemma OthersKept(w: World, w': World, k: DocKey)
    requires OthersAlone(w, w') && (k.kind == UserKind || k.kind == OrganizationKind)
    ensures Get(w'.docs, k) == Get(w.docs, k)
    ensures forall u | u in w.objects && w.objects[u].Key() == k :: u in w'.objects && w'.objects[u] == w.objects[u]
  {
  }

  /** A user or organization whose one settling led to the final state. */
  lemma DirectProgress(p: Params, w: World, a: World, b: World, c: World, i: Instance, o: Object, head: bool, ok: bool)
    requires !Nested(o) && StepSettled(p, a, b, i, p.selector, "", o, head) && (ok ==> head)
    requires a.secrets == w.secrets && Order(a) == Order(w) && o.uid in a.objects
    requires Get(a.docs, o.Key()) == Get(w.docs, o.Key()) && Get(c.docs, o.Key()) == Get(b.docs, o.Key())
    requires o.uid in b.objects ==> o.uid in c.objects && c.objects[o.uid] == b.objects[o.uid]
    requires o.uid in c.objects ==> o.uid in b.objects
    requires !Retiring(i, o) ==> (b == a && !head) || MembersFor(a.objects, Order(a), o) == MembersFor(Stayers(p, w.objects), Order(w), o)
    ensures Progress(p, w, c, i, o, ok)
  {
  }

  lemma UserKept(p: Params, a: World, b: World, c: World, i: Instance, orgs: bool, k: DocKey)
    requires KindSettled(p, a, b, i, OrganizationKind, p.selector, "", orgs) && OthersAlone(b, c) && k.kind == UserKind
    ensures Get(c.docs, k) == Get(a.docs, k)
    ensures forall u | u in a.objects && a.objects[u].Key() == k :: u in c.objects && c.objects[u] == a.objects[u]
  {
    OtherKindKept(p, a, b, i, OrganizationKind, orgs, k);
    OthersKept(b, c, k);
  }

  lemma UserProgress(p: Params, w: World, a: World, b: World, c: World, i: Instance, users: bool, orgs: bool, ok: bool, o: Object)
    requires Phases(p, w, a, b, c, i, users, orgs, ok) && o.uid in w.objects && w.objects[o.uid] == o && o.Kind() == UserKind
    ensures Progress(p, w, c, i, o, ok)
  {
    UserKept(p, a, b, c, i, orgs, o.Key());
    assert StepSettled(p, w, a, i, p.selector, "", o, users);
    DirectProgress(p, w, w, a, c, i, o, users, ok);
  }

  /** Where it is upserted, an organization finds the users that stay. */
  lemma MembersFromUsers(p: Params, w: World, a: World, i: Instance, o: Object)
    requires WF(w) && WF(a) && Isolates(p, w, a) && !i.deleting && KindSettled(p, w, a, i, UserKind, p.selector, "", true)
    requires forall u | u in a.objects && Picked(a.objects[u], UserKind, p.selector) && Retiring(i, a.objects[u]) :: !Carries(p, a.objects[u])
    ensures MembersFor(a.objects, Order(a), o) == MembersFor(Stayers(p, w.objects), Order(w), o)
  {
    UsersStay(p, w, a, i);
    if o.spec.OrganizationSpec? {
      AssignedSame(a.objects, Stayers(p, w.objects), Order(w), o.spec.bindings);
    }
  }

  lemma OrganizationKept(p: Params, w: World, a: World, b: World, c: World, i: Instance, users: bool, k: DocKey)
    requires KindSettled(p, w, a, i, UserKind, p.selector, "", users) && OthersAlone(b, c) && k.kind == OrganizationKind
    ensures Get(a.docs, k) == Get(w.docs, k) && Get(c.docs, k) == Get(b.docs, k)
    ensures forall u | u in w.objects && w.objects[u].Key() == k :: u in a.objects && a.objects[u] == w.objects[u]
    ensures forall u | u in b.objects && b.objects[u].Key() == k :: u in c.objects && c.objects[u] == b.objects[u]
  {
    OtherKindKept(p, w, a, i, UserKind, users, k);
    OthersKept(b, c, k);
  }

  lemma OrganizationFinds(p: Params, w: World, a: World, b: World, c: World, i: Instance, users: bool, orgs: bool, ok: bool, o: Object)
    requires Phases(p, w, a, b, c, i, users, orgs, ok)
    ensures !Retiring(i, o) ==> (b == a && !orgs) || MembersFor(a.objects, Order(a), o) == MembersFor(Stayers(p, w.objects), Order(w), o)
  {
    if users && !i.deleting {
      MembersFromUsers(p, w, a, i, o);
    }
  }

  lemma OrganizationProgress(p: Params, w: World, a: World, b: World, c: World, i: Instance, users: bool, orgs: bool, ok: bool, o: Object)
    requires Phases(p, w, a, b, c, i, users, orgs, ok) && o.uid in w.objects && w.objects[o.uid] == o && o.Kind() == OrganizationKind
    ensures Progress(p, w, c, i, o, ok)
  {
    OrganizationKept(p, w, a, b, c, i, users, o.Key());
    OrganizationFinds(p, w, a, b, c, i, users, orgs, ok, o);
    DirectProgress(p, w, a, b, c, i, o, orgs, ok);
  }

  lemma NestedProgress(p: Params, w: World, a: World, b: World, c: World, i: Instance, users: bool, orgs: bool, ok: bool, o: Object)
    requires Phases(p, w, a, b, c, i, users, orgs, ok) && o.uid in w.objects && w.objects[o.uid] == o && Nested(o)
    ensures Progress(p, w, c, i, o, ok)
  {
    OtherKindKept(p, w, a, i, UserKind, users, o.Key());
    OtherKindKept(p, a, b, i, OrganizationKind, orgs, o.Key());
    assert OwnedSettled(p, b, c, i, ListedOrganizations(p, a), b.objects[o.uid], ok);
    OrganizationsListed(p, w, a, i, users);
    NestedSettlingIsProgress(p, w, b, c, i, o, ok);
  }

  lemma NestedSettlingIsProgress(p: Params, w: World, b: World, c: World, i: Instance, o: Object, ok: bool)
    requires Nested(o) && Get(b.docs, o.Key()) == Get(w.docs, o.Key()) && b.secrets == w.secrets
    requires OwnedSettled(p, b, c, i, ListedOrganizations(p, w), o, ok)
    ensures Progress(p, w, c, i, o, ok)
  {
  }

  lemma OrganizationsListed(p: Params, w: World, a: World, i: Instance, users: bool)
    requires WF(w) && Isolates(p, w, a) && KindSettled(p, w, a, i, UserKind, p.selector, "", users)
    ensures ListedOrganizations(p, a) == ListedOrganizations(p, w)
  {
    ListSame(w.objects, a.objects, Order(w), OrganizationKind, p.selector);
  }

  lemma PhasesProgress(p: Params, w: World, a: World, b: World, c: World, i: Instance, users: bool, orgs: bool, ok: bool)
    requires Phases(p, w, a, b, c, i, users, orgs, ok)
    ensures AllProgress(p, w, c, i, ok)
  {
    forall u | u in w.objects
      ensures Progress(p, w, c, i, w.objects[u], ok)
    {
      var o := w.objects[u];
      if o.Kind() == UserKind {
        UserProgress(p, w, a, b, c, i, users, orgs, ok, o);
      } else if o.Kind() == OrganizationKind {
        OrganizationProgress(p, w, a, b, c, i, users, orgs, ok, o);
      } else {
        NestedProgress(p, w, a, b, c, i, users, orgs, ok, o);
      }
    }
    forall k | Unkeyed(w, UserKind, k) && Unkeyed(w, OrganizationKind, k) && Unkeyed(w, FeatureKind, k) && Unkeyed(w, ClientKind, k)
      ensures Get(c.docs, k) == Get(w.docs, k)
    {
      StrangeKey(p, w, a, b, c, i, users, orgs, ok, k);
    }
  }

  lemma StrangeKey(p: Params, w: World, a: World, b: World, c: World, i: Instance, users: bool, orgs: bool, ok: bool, k: DocKey)
    requires Phases(p, w, a, b, c, i, users, orgs, ok)
    requires Unkeyed(w, UserKind, k) && Unkeyed(w, OrganizationKind, k) && Unkeyed(w, FeatureKind, k) && Unkeyed(w, ClientKind, k)
    ensures Get(c.docs, k) == Get(w.docs, k)
  {
    IsolatesTransitive(p, w, a, b);
    UnkeyedLater(p, w, a, OrganizationKind, k);
    UnkeyedLater(p, w, b, FeatureKind, k);
    UnkeyedLater(p, w, b, ClientKind, k);
  }

  lemma UsersPhase(p: Params, s: State, i: Instance)
    requires QuietTicks(s.ticks) && WF(s.w)
    ensures var r := ReconcileKind(p, s, i, UserKind, p.selector, "");
            r.ok ==> forall u | u in r.s.w.objects && Picked(r.s.w.objects[u], UserKind, p.selector) && Retiring(i, r.s.w.objects[u]) ::
                       !Carries(p, r.s.w.objects[u])
  {
    ReconcileKindIsQuiet(p, s, i, UserKind, p.selector, "");
    var r := ReconcileKind(p, s, i, UserKind, p.selector, "");
    var items := List(s.w.objects, Order(s.w), UserKind, p.selector);
    ListMembers(s.w, UserKind, p.selector);
    forall u | r.ok && u in r.s.w.objects && Picked(r.s.w.objects[u], UserKind, p.selector) && Retiring(i, r.s.w.objects[u])
      ensures !Carries(p, r.s.w.objects[u])
    {
      assert s.w.objects[u] in items && Released(p, r.s.w, s.w.objects[u]);
    }
  }

  lemma NothingNested(p: Params, w: World, i: Instance, orgs: seq<Object>)
    requires WF(w)
    ensures AllNestedSettled(p, w, w, i, orgs, false)
  {
    forall u | u in w.objects && Nested(w.objects[u])
      ensures OwnedSettled(p, w, w, i, orgs, w.objects[u], false)
    {
      assert Look(w.docs, w.objects[u].Key()) == Folded(p, w.secrets, i, orgs[..0], w.objects[u], Look(w.docs, w.objects[u].Key()));
    }
  }

  lemma NothingOfKind(p: Params, w: World, i: Instance, kind: Kind)
    requires WF(w)
    ensures KindSettled(p, w, w, i, kind, p.selector, "", false)
  {
  }

  /** The phases up to the organizations, completed or cut short. */
  lemma FirstPhases(p: Params, s: State, i: Instance)
    requires QuietTicks(s.ticks) && WF(s.w)
    ensures var u := ReconcileKind(p, s, i, UserKind, p.selector, "");
            var o := if u.ok then ReconcileKind(p, u.s, i, OrganizationKind, p.selector, "") else u;
            && QuietTicks(u.s.ticks) && QuietTicks(o.s.ticks) && WF(u.s.w) && WF(o.s.w) && o.s.w.instance == s.w.instance
            && Isolates(p, s.w, u.s.w) && Isolates(p, u.s.w, o.s.w)
            && KindSettled(p, s.w, u.s.w, i, UserKind, p.selector, "", u.ok)
            && KindSettled(p, u.s.w, o.s.w, i, OrganizationKind, p.selector, "", u.ok && o.ok)
  {
    KindStep(p, s, i, UserKind, p.selector, "");
    var u := ReconcileKind(p, s, i, UserKind, p.selector, "");
    if u.ok {
      KindStep(p, u.s, i, OrganizationKind, p.selector, "");
    } else {
      NothingOfKind(p, u.s.w, i, OrganizationKind);
    }
  }

  lemma LastPhase(p: Params, s: State, i: Instance, orgs: seq<Object>, ok: bool)
    requires QuietTicks(s.ticks) && WF(s.w) && forall o | o in orgs :: o.spec.OrganizationSpec?
    ensures var r := if ok then ReconcileOwned(p, s, i, orgs) else Outcome(s, false);
            && QuietTicks(r.s.ticks) && WF(r.s.w) && r.s.w.instance == s.w.instance && Isolates(p, s.w, r.s.w)
            && AllNestedSettled(p, s.w, r.s.w, i, orgs, r.ok)
  {
    if ok {
      ReconcileOwnedIsQuiet(p, s, i, orgs);
    } else {
      NothingNested(p, s.w, i, orgs);
    }
  }

  lemma ReconcileAllProgress(p: Params, s: State, i: Instance)
    requires QuietTicks(s.ticks) && WF(s.w)
    ensures var r := ReconcileAll(p, s, i);
            && QuietTicks(r.s.ticks) && WF(r.s.w) && r.s.w.instance == s.w.instance && Isolates(p, s.w, r.s.w)
            && AllProgress(p, s.w, r.s.w, i, r.ok)
  {
    var s0 := s.(catalog := []);
    FirstPhases(p, s0, i);
    UsersPhase(p, s0, i);
    var u := ReconcileKind(p, s0, i, UserKind, p.selector, "");
    var o := if u.ok then ReconcileKind(p, u.s, i, OrganizationKind, p.selector, "") else u;
    BeginIsQuiet(p, u.s);
    SnapshotKinds(p, u.s, p.selector);
    var orgs := ListedOrganizations(p, u.s.w);
    LastPhase(p, o.s, i, orgs, u.ok && o.ok);
    var r := if u.ok && o.ok then ReconcileOwned(p, o.s, i, orgs) else Outcome(o.s, false);
    assert r == ReconcileAll(p, s, i);
    IsolatesTransitive(p, s.w, u.s.w, o.s.w);
    IsolatesTransitive(p, s.w, o.s.w, r.s.w);
    PhasesProgress(p, s.w, u.s.w, o.s.w, r.s.w, i, u.ok, u.ok && o.ok, r.ok);
  }

  lemma NoProgress(p: Params, w: World, w': World, i: Instance)
    requires w' == w.(instance := w'.instance) && WF(w)
    ensures AllProgress(p, w, w', i, false) && Isolates(p, w, w')
  {
    forall u | u in w.objects
      ensures Progress(p, w, w', i, w.objects[u], false)
    {
      var o := w.objects[u];
      assert Look(w'.docs, o.Key()) == Folded(p, w.secrets, i, ListedOrganizations(p, w)[..0], o, Look(w.docs, o.Key()));
    }
  }

  lemma InstanceAside(p: Params, w: World, v: World, r: World, r': World, i: Instance, ok: bool)
    requires v == w.(instance := v.instance) && r' == r.(instance := r'.instance)
    requires AllProgress(p, v, r, i, ok) && Isolates(p, v, r)
    ensures AllProgress(p, w, r', i, ok) && Isolates(p, w, r')
  {
    forall u | u in w.objects
      ensures Progress(p, w, r', i, w.objects[u], ok)
    {
      ProgressAside(p, w, v, r, r', i, w.objects[u], ok);
    }
  }

  lemma ProgressAside(p: Params, w: World, v: World, r: World, r': World, i: Instance, o: Object, ok: bool)
    requires v == w.(instance := v.instance) && r' == r.(instance := r'.instance) && Progress(p, v, r, i, o, ok)
    ensures Progress(p, w, r', i, o, ok)
  {
    assert TargetOf(p, v, i, o) == TargetOf(p, w, i, o);
  }

  lemma PatchInstanceIsQuiet(p: Params, s: State, finalizers: seq<string>)
    requires QuietTicks(s.ticks)
    ensures var r := PatchInstance(p, s, finalizers);
            && QuietTicks(r.s.ticks) && r.s.w == s.w.(instance := r.s.w.instance)
            && (!r.ok ==> r.s.w == s.w)
            && (r.s.w.instance.Some? ==> s.w.instance.Some? && r.s.w.instance.value.deleting == s.w.instance.value.deleting)
            && (s.w.instance.Some? && r.s.w.instance.None? ==> r.ok && s.w.instance.value.deleting)
            && r.s.catalog == s.catalog
  {
  }

  /** The pass up to where it starts on the resources: the instance read and, if live, its finalizer put on. */
  function Opening(p: Params, s: State): Outcome {
    var b := Begin(p, s);
    if b.ok && b.s.w.instance.Some? && !b.s.w.instance.value.deleting
    then PatchInstance(p, b.s, With(b.s.w.instance.value.finalizers, FinalizerNames.FINALIZER))
    else b
  }

  /** The instance is as much alive as it was, or went in a completed pass. */
  ghost predicate Outlives(w: World, x: World, ok: bool)
    requires w.instance.Some?
  {
    if x.instance.Some? then x.instance.value.deleting == w.instance.value.deleting else ok && w.instance.value.deleting
  }

  /** Before and after the resources are dealt with nothing but the instance record changes. */
  lemma PassUnfolds(p: Params, s: State)
    requires QuietTicks(s.ticks) && WF(s.w) && s.w.instance.Some? && !p.suspend
    ensures var m, r := Opening(p, s), Reconcile(p, s);
            && QuietTicks(m.s.ticks) && m.s.w == s.w.(instance := m.s.w.instance) && m.s.catalog == s.catalog
            && Outlives(s.w, r.s.w, r.ok)
            && if m.ok then
                 var t := ReconcileAll(p, m.s, s.w.instance.value);
                 r.s.w == t.s.w.(instance := r.s.w.instance) && r.s.catalog == t.s.catalog && (r.ok ==> t.ok)
               else r == m
  {
    BeginIsQuiet(p, s);
    var b, i := Begin(p, s), s.w.instance.value;
    PatchInstanceIsQuiet(p, b.s, With(i.finalizers, FinalizerNames.FINALIZER));
    var m := Opening(p, s);
    if m.ok {
      ReconcileAllProgress(p, m.s, i);
      PatchInstanceIsQuiet(p, ReconcileAll(p, m.s, i).s, Without(i.finalizers, FinalizerNames.FINALIZER));
    }
  }

  lemma ReconcileProgress(p: Params, s: State)
    requires QuietTicks(s.ticks) && WF(s.w) && s.w.instance.Some? && !p.suspend
    ensures var r := Reconcile(p, s);
            && WF(r.s.w) && Isolates(p, s.w, r.s.w) && AllProgress(p, s.w, r.s.w, s.w.instance.value, r.ok)
            && Outlives(s.w, r.s.w, r.ok)
  {
    PassUnfolds(p, s);
    var i, m, r := s.w.instance.value, Opening(p, s), Reconcile(p, s);
    if m.ok {
      ReconcileAllProgress(p, m.s, i);
      var t := ReconcileAll(p, m.s, i);
      InstanceAside(p, s.w, m.s.w, t.s.w, r.s.w, i, t.ok);
      LessProgress(p, s.w, r.s.w, i, t.ok, r.ok);
    } else {
      NoProgress(p, s.w, m.s.w, i);
    }
  }

  lemma LessProgress(p: Params, w: World, w': World, i: Instance, more: bool, ok: bool)
    requires AllProgress(p, w, w', i, more) && (ok ==> more)
    ensures AllProgress(p, w, w', i, ok)
  {
    forall u | u in w.objects
      ensures Progress(p, w, w', i, w.objects[u], ok)
    {
      assert Progress(p, w, w', i, w.objects[u], more);
    }
  }

  /** A complete pass with nobody else acting: every object's document is at its target. Documents of objects
      no listing reaches, of retiring ones without prune, and of no object at all, are the very same; so without
      prune the pass of a deleting instance changes none. */
  lemma CompletePassReachesTarget(p: Params, s: State)
    requires QuietTicks(s.ticks) && WF(s.w) && s.w.instance.Some? && !p.suspend && Reconcile(p, s).ok
    ensures var w' := Reconcile(p, s).s.w;
            && (forall u | u in s.w.objects :: Look(w'.docs, s.w.objects[u].Key()) == TargetOf(p, s.w, s.w.instance.value, s.w.objects[u]))
            && (forall u | u in s.w.objects && (!Listed(p, s.w, s.w.objects[u]) || (Retiring(s.w.instance.value, s.w.objects[u]) && !p.prune)) ::
                  Get(w'.docs, s.w.objects[u].Key()) == Get(s.w.docs, s.w.objects[u].Key()))
            && (forall k | forall u | u in s.w.objects :: s.w.objects[u].Key() != k :: Get(w'.docs, k) == Get(s.w.docs, k))
            && (s.w.instance.value.deleting && !p.prune ==> w'.docs == s.w.docs)
  {
    ReconcileProgress(p, s);
    var w, w', i := s.w, Reconcile(p, s).s.w, s.w.instance.value;
    forall u | u in w.objects
      ensures Look(w'.docs, w.objects[u].Key()) == TargetOf(p, w, i, w.objects[u])
    {
      assert Progress(p, w, w', i, w.objects[u], true);
    }
    forall u | u in w.objects && (!Listed(p, w, w.objects[u]) || (Retiring(i, w.objects[u]) && !p.prune))
      ensures Get(w'.docs, w.objects[u].Key()) == Get(w.docs, w.objects[u].Key())
    {
      assert Progress(p, w, w', i, w.objects[u], true);
    }
    forall k | forall u | u in w.objects :: w.objects[u].Key() != k
      ensures Get(w'.docs, k) == Get(w.docs, k)
    {
      assert Unkeyed(w, UserKind, k) && Unkeyed(w, OrganizationKind, k) && Unkeyed(w, FeatureKind, k) && Unkeyed(w, ClientKind, k);
    }
    if i.deleting && !p.prune {
      forall k
        ensures Get(w'.docs, k) == Get(w.docs, k)
      {
        if u :| u in w.objects && w.objects[u].Key() == k {
          assert Progress(p, w, w', i, w.objects[u], true);
        }
      }
      SameDocs(w.docs, w'.docs);
    }
  }

  lemma SameDocs(a: Docs, b: Docs)
    requires forall k :: Get(b, k) == Get(a, k)
    ensures a == b
  {
    assert forall k :: k in a <==> Get(a, k).Some?;
    assert forall k :: k in b <==> Get(b, k).Some?;
    assert forall k | k in a :: b[k] == Get(b, k).value == a[k];
  }
}
