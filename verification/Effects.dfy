/**
 What a pass does to one document, leaving out dates, random keys and the password hash. Effects of
 several organizations on one resource compose: for a feature the first one that selects it wins, for a
 client the last.
 */
module Effects {
  import opened Wrappers
  import opened Documents
  import opened Selectors
  import opened Resources
  import opened FeatureMerge
  import opened FeatureTranslation
  import opened Upserts
  import opened Worlds
  import opened Pass
  import opened Demands
  import opened NoOrphans
  import KeyGenerator

  /** A document without what time and chance put into it. */
  function Erased(d: Doc): Doc {
    match d
    case UserDoc(u) => UserDoc(u.(passwordHash := ""))
    case OrganizationDoc(o) => OrganizationDoc(o.(dateCreated := 0))
    case FeatureDoc(f) => FeatureDoc(f.(dateCreated := 0, dateUpdated := 0))
    case ConnectionDoc(c) => ConnectionDoc(c.(dateCreated := 0, dateUpdated := 0, encryptionKey := "", signingKey := ""))
  }

  function ErasedOption(d: Option<Doc>): Option<Doc> {
    if d.Some? then Some(Erased(d.value)) else None
  }

  function Look(docs: Docs, k: DocKey): Option<Doc> {
    ErasedOption(Get(docs, k))
  }

  const STILL := Entropy(0, [], [], [], false)

  /** The upsert of the object on an erased document. */
  function Merge(p: Params, secrets: Secrets, organization: string, members: seq<Member>, o: Object, d: Option<Doc>): Option<Doc> {
    var r := Computed(p, secrets, organization, members, o, d, STILL);
    if r.None? then None else Some(Erased(r.value.doc))
  }

  /** Everything an upsert of the object needs is there. */
  predicate Mergeable(secrets: Secrets, o: Object) {
    match o.spec
    case UserSpec(_, _, _, _) => SecretGiven(secrets, o)
    case OrganizationSpec(_, _, _, _, _) => true
    case FeatureSpec(_, _, _, _, _, _) => VersionsPaired(o)
    case ClientSpec(_, _, _, _, _, _, _, _, _, _) => TokenGiven(secrets, o)
  }

  lemma FeatureErases(existing: Option<Feature>, f: Feature, now: Time, reordered: bool)
    ensures var d := if existing.Some? then Some(FeatureDoc(existing.value)) else None;
            Erased(FeatureDoc(UpsertFeature(existing, f, now, reordered).doc)) ==
            Erased(FeatureDoc(UpsertFeature(AsFeature(ErasedOption(d)), f, 0, false).doc))
  {
  }

  lemma ConnectionErases(existing: Option<SDKConnection>, c: SDKConnection, now: Time, key1: string, key2: string, key1': string, key2': string)
    ensures var d := if existing.Some? then Some(ConnectionDoc(existing.value)) else None;
            Erased(ConnectionDoc(UpsertConnection(existing, c, now, key1, key2).doc)) ==
            Erased(ConnectionDoc(UpsertConnection(AsConnection(ErasedOption(d)), c, 0, key1', key2').doc))
  {
  }

  /** Time and chance decide nothing but what is erased. */
  lemma ComputedErases(p: Params, secrets: Secrets, organization: string, members: seq<Member>, o: Object, d: Option<Doc>, e: Entropy)
    ensures var r := Computed(p, secrets, organization, members, o, d, e);
            && r.Some? == Mergeable(secrets, o)
            && (r.Some? ==> Some(Erased(r.value.doc)) == Merge(p, secrets, organization, members, o, ErasedOption(d)))
  {
    match o.spec
    case FeatureSpec(_, _, _, _, _, _) =>
      if Mergeable(secrets, o) {
        FeatureErases(AsFeature(d), Translated(o, OWNER, organization, p.parse).value, e.now, e.reordered);
      }
    case ClientSpec(_, _, _, _, _, _, _, _, _, _) =>
      if Mergeable(secrets, o) {
        ConnectionErases(AsConnection(d), ConnectionOf(secrets, o, organization).value, e.now,
                         KeyGenerator.GenerateKey("", e.key1), KeyGenerator.GenerateKey("", e.key2),
                         KeyGenerator.GenerateKey("", STILL.key1), KeyGenerator.GenerateKey("", STILL.key2));
      }
    case _ =>
  }

  lemma FirstMergeWins(p: Params, secrets: Secrets, a: string, b: string, o: Object, d: Option<Doc>)
    requires o.spec.FeatureSpec? && Translates(o.spec.environments)
    ensures Merge(p, secrets, b, [], o, Merge(p, secrets, a, [], o, d)) == Merge(p, secrets, a, [], o, d)
  {
    var f, g := Translated(o, OWNER, a, p.parse).value, Translated(o, OWNER, b, p.parse).value;
    TranslatedIsSpec(o, OWNER, a, p.parse);
    if AsFeature(d).Some? {
      MergedFeatureIdempotent(d.value.feature, f);
      assert MergedFeature(d.value.feature, f) == MergedFeature(d.value.feature, g);
    } else {
      MergedFeatureIdempotent(f, f);
    }
  }

  lemma ConnectionLastWins(x: SDKConnection, a: SDKConnection, b: SDKConnection)
    requires b == a.(organization := b.organization)
    ensures MergedConnection(MergedConnection(x, a), b) == MergedConnection(x, b)
    ensures MergedConnection(a, b) == b
  {
  }

  /** The upsert of a connection without dates and keys. */
  lemma MergeOfConnection(p: Params, secrets: Secrets, organization: string, o: Object, d: Option<Doc>)
    requires o.spec.ClientSpec? && ConnectionOf(secrets, o, organization).Some?
    ensures var c := ConnectionOf(secrets, o, organization).value;
            Merge(p, secrets, organization, [], o, d) ==
            Some(Erased(ConnectionDoc(if AsConnection(d).Some? then MergedConnection(d.value.connection, c) else c)))
  {
  }

  lemma LastMergeWins(p: Params, secrets: Secrets, a: string, b: string, o: Object, d: Option<Doc>)
    requires o.spec.ClientSpec? && ConnectionOf(secrets, o, a).Some?
    ensures Merge(p, secrets, b, [], o, Merge(p, secrets, a, [], o, d)) == Merge(p, secrets, b, [], o, d)
  {
    var x, y := ConnectionOf(secrets, o, a).value, ConnectionOf(secrets, o, b).value;
    MergeOfConnection(p, secrets, a, o, d);
    MergeOfConnection(p, secrets, b, o, d);
    MergeOfConnection(p, secrets, b, o, Merge(p, secrets, a, [], o, d));
    if AsConnection(d).Some? {
      ConnectionLastWins(d.value.connection, x, y);
    } else {
      ConnectionLastWins(x, x, y);
    }
  }

  lemma MergeIdempotentOnce(p: Params, secrets: Secrets, members: seq<Member>, o: Object, d: Option<Doc>)
    requires o.spec.UserSpec? || o.spec.OrganizationSpec?
    requires Merge(p, secrets, "", members, o, d).Some?
    ensures Merge(p, secrets, "", members, o, Merge(p, secrets, "", members, o, d)) == Merge(p, secrets, "", members, o, d)
  {
  }

  /** The members the bindings select among the objects, in binding order and then list order. */
  function Assigned(objects: map<nat, Object>, order: seq<nat>, bindings: seq<Binding>): seq<Member>
    decreases |bindings|
  {
    if bindings == [] then []
    else MembersOf(List(objects, order, UserKind, bindings[0].selector), bindings[0].role) + Assigned(objects, order, bindings[1..])
  }

  function MembersFor(objects: map<nat, Object>, order: seq<nat>, o: Object): seq<Member> {
    if o.spec.OrganizationSpec? then Assigned(objects, order, o.spec.bindings) else []
  }

  /** What settling the object does to its document. */
  function Effect(p: Params, secrets: Secrets, i: Instance, organization: string, members: seq<Member>, o: Object, d: Option<Doc>): Option<Doc> {
    if Retiring(i, o) then if p.prune then None else d
    else Merge(p, secrets, organization, members, o, d)
  }

  /** One organization after the other, each acting if it selects the object. */
  function Folded(p: Params, secrets: Secrets, i: Instance, orgs: seq<Object>, o: Object, d: Option<Doc>): Option<Doc>
    decreases |orgs|
  {
    if orgs == [] then d
    else
      Folded(p, secrets, i, orgs[1..], o,
             if Selects(OwnSelector(orgs[0]), o.labels) then Effect(p, secrets, i, orgs[0].Id(), [], o, d) else d)
  }

  lemma {:induction false} FoldedAppend(p: Params, secrets: Secrets, i: Instance, a: seq<Object>, b: seq<Object>, o: Object, d: Option<Doc>)
    ensures Folded(p, secrets, i, a + b, o, d) == Folded(p, secrets, i, b, o, Folded(p, secrets, i, a, o, d))
    decreases |a|
  {
    if a == [] {
      assert a + b == b;
    } else {
      assert (a + b)[1..] == a[1..] + b;
      var d' := if Selects(OwnSelector(a[0]), o.labels) then Effect(p, secrets, i, a[0].Id(), [], o, d) else d;
      FoldedAppend(p, secrets, i, a[1..], b, o, d');
    }
  }

  predicate Nested(o: Object) {
    o.spec.FeatureSpec? || o.spec.ClientSpec?
  }

  /** Where the first effect wins, or the object is retired, later organizations change nothing. */
  lemma {:induction false} FoldedAfterEffect(p: Params, secrets: Secrets, i: Instance, orgs: seq<Object>, id: string, o: Object, d: Option<Doc>)
    requires Nested(o) && (Retiring(i, o) || (o.spec.FeatureSpec? && Mergeable(secrets, o)))
    ensures var x := Effect(p, secrets, i, id, [], o, d); Folded(p, secrets, i, orgs, o, x) == x
    decreases |orgs|
  {
    var x := Effect(p, secrets, i, id, [], o, d);
    if orgs != [] {
      if !Retiring(i, o) {
        FirstMergeWins(p, secrets, id, orgs[0].Id(), o, d);
      }
      assert Effect(p, secrets, i, orgs[0].Id(), [], o, x) == x;
      FoldedAfterEffect(p, secrets, i, orgs[1..], id, o, d);
    }
  }

  /** For a live client what was there before does not matter once an organization selects it. */
  lemma {:induction false} FoldedForgets(p: Params, secrets: Secrets, i: Instance, orgs: seq<Object>, id: string, o: Object, d: Option<Doc>)
    requires o.spec.ClientSpec? && Mergeable(secrets, o) && !Retiring(i, o)
    requires exists org | org in orgs :: Selects(OwnSelector(org), o.labels)
    ensures Folded(p, secrets, i, orgs, o, Effect(p, secrets, i, id, [], o, d)) == Folded(p, secrets, i, orgs, o, d)
    decreases |orgs|
  {
    if Selects(OwnSelector(orgs[0]), o.labels) {
      LastMergeWins(p, secrets, id, orgs[0].Id(), o, d);
    } else {
      FoldedForgets(p, secrets, i, orgs[1..], id, o, d);
    }
  }

  /** The first listed organization that selects the object. */
  function FirstOwner(orgs: seq<Object>, o: Object): Option<Object> {
    if orgs == [] then None
    else if Selects(OwnSelector(orgs[0]), o.labels) then Some(orgs[0])
    else FirstOwner(orgs[1..], o)
  }

  lemma {:induction false} FirstOwnerOfPrefix(orgs: seq<Object>, n: nat, o: Object)
    requires n <= |orgs|
    ensures FirstOwner(orgs[..n], o).Some? ==> FirstOwner(orgs, o) == FirstOwner(orgs[..n], o)
  {
    if n > 0 {
      assert orgs[..n][1..] == orgs[1..][..n - 1];
      FirstOwnerOfPrefix(orgs[1..], n - 1, o);
    }
  }

  lemma {:induction false} FirstOwnerExists(orgs: seq<Object>, o: Object)
    ensures FirstOwner(orgs, o).Some? <==> exists org | org in orgs :: Selects(OwnSelector(org), o.labels)
    ensures FirstOwner(orgs, o).Some? ==> FirstOwner(orgs, o).value in orgs && Selects(OwnSelector(FirstOwner(orgs, o).value), o.labels)
  {
    if orgs != [] {
      FirstOwnerExists(orgs[1..], o);
    }
  }

  lemma {:induction false} FoldedIsFirst(p: Params, secrets: Secrets, i: Instance, orgs: seq<Object>, o: Object, d: Option<Doc>)
    requires Nested(o)
    requires FirstOwner(orgs, o).Some? ==> Retiring(i, o) || (o.spec.FeatureSpec? && Mergeable(secrets, o))
    ensures var first := FirstOwner(orgs, o);
            Folded(p, secrets, i, orgs, o, d) == if first.Some? then Effect(p, secrets, i, first.value.Id(), [], o, d) else d
    decreases |orgs|
  {
    if orgs != [] {
      if Selects(OwnSelector(orgs[0]), o.labels) {
        FoldedAfterEffect(p, secrets, i, orgs[1..], orgs[0].Id(), o, d);
      } else {
        FoldedIsFirst(p, secrets, i, orgs[1..], o, d);
      }
    }
  }

  lemma {:induction false} FoldedRestartClient(p: Params, secrets: Secrets, i: Instance, orgs: seq<Object>, n: nat, o: Object, d: Option<Doc>)
    requires o.spec.ClientSpec? && !Retiring(i, o) && n <= |orgs|
    requires FirstOwner(orgs, o).Some? ==> Mergeable(secrets, o)
    ensures Folded(p, secrets, i, orgs, o, Folded(p, secrets, i, orgs[..n], o, d)) == Folded(p, secrets, i, orgs, o, d)
  {
    if n > 0 {
      var org, z := orgs[n - 1], Folded(p, secrets, i, orgs[..n - 1], o, d);
      assert orgs[..n] == orgs[..n - 1] + [org];
      FoldedAppend(p, secrets, i, orgs[..n - 1], [org], o, d);
      FoldedRestartClient(p, secrets, i, orgs, n - 1, o, d);
      if Selects(OwnSelector(org), o.labels) {
        FirstOwnerExists(orgs, o);
        FoldedForgets(p, secrets, i, orgs, org.Id(), o, z);
      }
    }
  }

  /** Starting over after a prefix ends where going through once does. */
  lemma FoldedRestart(p: Params, secrets: Secrets, i: Instance, orgs: seq<Object>, n: nat, o: Object, d: Option<Doc>)
    requires Nested(o) && n <= |orgs|
    requires FirstOwner(orgs, o).Some? && !Retiring(i, o) ==> Mergeable(secrets, o)
    ensures Folded(p, secrets, i, orgs, o, Folded(p, secrets, i, orgs[..n], o, d)) == Folded(p, secrets, i, orgs, o, d)
  {
    if o.spec.FeatureSpec? || Retiring(i, o) {
      FirstOwnerOfPrefix(orgs, n, o);
      FoldedIsFirst(p, secrets, i, orgs[..n], o, d);
      FoldedIsFirst(p, secrets, i, orgs, o, d);
      if FirstOwner(orgs[..n], o).Some? {
        FoldedAfterEffect(p, secrets, i, orgs, FirstOwner(orgs, o).value.Id(), o, d);
      }
    } else {
      FoldedRestartClient(p, secrets, i, orgs, n, o, d);
    }
  }
}
