/**
 What no pass ever changes of a document that is there: its creation date and revision, a user's password hash, a
 connection's keys, a feature's owner and organization. Without prune this holds over every run in which nobody
 else writes or removes documents; with prune, over every run that nobody disturbs, of every document that is not
 deleted.
 */
module Identity {
  import opened Wrappers
  import opened Documents
  import opened Selectors
  import opened Resources
  import opened Upserts
  import opened Worlds
  import opened Pass
  import opened NoOrphans
  import opened NoStrands
  import opened Effects
  import opened Quiet
  import opened Target
  import opened Conformance
  import opened Demands
  import FinalizerNames
  import KeyGenerator
  import PasswordHash

  ghost predicate ComputedAs(o: Object, organization: string, existing: Option<Doc>, r: Upserted<Doc>) {
    && r.doc.ConnectionDoc? == o.spec.ClientSpec?
    && (r.doc.ConnectionDoc? ==> r.doc.connection.environment == o.spec.environment && r.doc.connection.organization == organization)
    && r.doc.Key() == o.Key()
    && (!r.wrote && existing.Some? && existing.value.Key() == o.Key() ==> existing == Some(r.doc))
    && (existing.None? ==> r.wrote)
  }

  lemma ComputedUser(p: Params, secrets: Secrets, organization: string, members: seq<Member>, o: Object, existing: Option<Doc>, e: Entropy)
    requires o.spec.UserSpec? || o.spec.OrganizationSpec?
    ensures var r := Computed(p, secrets, organization, members, o, existing, e); r.Some? ==> ComputedAs(o, organization, existing, r.value)
  {
  }

  lemma ComputedFeature(p: Params, secrets: Secrets, organization: string, members: seq<Member>, o: Object, existing: Option<Doc>, e: Entropy)
    requires o.spec.FeatureSpec?
    ensures var r := Computed(p, secrets, organization, members, o, existing, e); r.Some? ==> ComputedAs(o, organization, existing, r.value)
  {
  }

  lemma StoredConnection(existing: Option<SDKConnection>, c: SDKConnection, now: Time, key1: string, key2: string)
    ensures var r := UpsertConnection(existing, c, now, key1, key2);
            && r.doc.id == c.id && r.doc.environment == c.environment && r.doc.organization == c.organization
            && (!r.wrote ==> existing == Some(r.doc))
  {
  }

  lemma ComputedClient(p: Params, secrets: Secrets, organization: string, members: seq<Member>, o: Object, existing: Option<Doc>, e: Entropy)
    requires o.spec.ClientSpec?
    ensures var r := Computed(p, secrets, organization, members, o, existing, e); r.Some? ==> ComputedAs(o, organization, existing, r.value)
  {
    var c := ConnectionOf(secrets, o, organization);
    if c.Some? {
      StoredConnection(AsConnection(existing), c.value, e.now, KeyGenerator.GenerateKey("", e.key1), KeyGenerator.GenerateKey("", e.key2));
    }
  }

  lemma ComputedConnection(p: Params, secrets: Secrets, organization: string, members: seq<Member>, o: Object, existing: Option<Doc>, e: Entropy)
    requires Computed(p, secrets, organization, members, o, existing, e).Some?
    ensures ComputedAs(o, organization, existing, Computed(p, secrets, organization, members, o, existing, e).value)
  {
    if o.spec.FeatureSpec? {
      ComputedFeature(p, secrets, organization, members, o, existing, e);
    } else if o.spec.ClientSpec? {
      ComputedClient(p, secrets, organization, members, o, existing, e);
    } else {
      ComputedUser(p, secrets, organization, members, o, existing, e);
    }
  }

  /** An update keeps creation date, revision and keys, and stays under its key. */
  lemma UpsertKeepsIdentity(p: Params, secrets: Secrets, organization: string, members: seq<Member>, o: Object, d: Doc, e: Entropy)
    requires d.Key() == o.Key()
    ensures var r := Computed(p, secrets, organization, members, o, Some(d), e);
            r.Some? ==> SameIdentity(d, r.value.doc) && r.value.doc.Key() == d.Key()
  {
    if Computed(p, secrets, organization, members, o, Some(d), e).Some? {
      ComputedConnection(p, secrets, organization, members, o, Some(d), e);
    }
  }

  /** What one upsert gives a document nobody stored before: its dates, its keys, and nothing of a history. */
  ghost predicate BornOf(e: Entropy, d: Doc) {
    match d
    case UserDoc(u) => u.revision == 0 && PasswordHash.SaltOf(u.passwordHash) == PasswordHash.Hex(e.salt)
    case OrganizationDoc(g) => g.dateCreated == e.now && g.revision == 0
    case FeatureDoc(f) => f.dateCreated == e.now && f.owner == "growthbook-controller" && !f.archived && f.revision == 0
    case ConnectionDoc(c) =>
      && c.dateCreated == e.now && c.revision == 0
      && c.encryptionKey == KeyGenerator.Filtered(KeyGenerator.Base64(e.key1))
      && c.signingKey == KeyGenerator.Filtered(KeyGenerator.Base64(e.key2))
  }

  ghost predicate Born(draws: set<Entropy>, d: Doc) {
    exists e | e in draws :: BornOf(e, d)
  }

  lemma GeneratedKeyIsFiltered(b: seq<KeyGenerator.Byte>)
    ensures KeyGenerator.GenerateKey("", b) == KeyGenerator.Filtered(KeyGenerator.Base64(b))
  {
    KeyGenerator.Base64Shape(b);
    KeyGenerator.DeletionsAreOneFilter(KeyGenerator.Base64(b));
  }

  lemma InsertedConnection(c: SDKConnection, now: Time, key1: string, key2: string)
    ensures var r := UpsertConnection(None, c, now, key1, key2);
            && r.wrote && r.doc.dateCreated == now && r.doc.dateUpdated == now && r.doc.revision == c.revision
            && r.doc.encryptionKey == key1 && r.doc.signingKey == key2
  {
  }

  lemma ClientIsBorn(p: Params, secrets: Secrets, organization: string, members: seq<Member>, o: Object, d: Option<Doc>, e: Entropy)
    requires o.spec.ClientSpec? && AsConnection(d).None?
    ensures var r := Computed(p, secrets, organization, members, o, d, e);
            r.Some? ==> r.value.wrote && r.value.doc.ConnectionDoc? && BornOf(e, r.value.doc) && r.value.doc.connection.dateUpdated == e.now
  {
    var c := ConnectionOf(secrets, o, organization);
    if c.Some? {
      InsertedConnection(c.value, e.now, KeyGenerator.GenerateKey("", e.key1), KeyGenerator.GenerateKey("", e.key2));
      GeneratedKeyIsFiltered(e.key1);
      GeneratedKeyIsFiltered(e.key2);
    }
  }

  /** An upsert without a stored document writes one born of what the call draws, last updated when it was created. */
  lemma InsertIsBorn(p: Params, secrets: Secrets, organization: string, members: seq<Member>, o: Object, d: Option<Doc>, e: Entropy)
    requires d.None?
    ensures var r := Computed(p, secrets, organization, members, o, d, e);
            r.Some? ==>
              && r.value.wrote && BornOf(e, r.value.doc)
              && (r.value.doc.FeatureDoc? ==> r.value.doc.feature.dateUpdated == e.now)
              && (r.value.doc.ConnectionDoc? ==> r.value.doc.connection.dateUpdated == e.now)
  {
    if o.spec.ClientSpec? {
      ClientIsBorn(p, secrets, organization, members, o, d, e);
    } else if o.spec.UserSpec? && SecretGiven(secrets, o) {
      var salt := PasswordHash.Hex(e.salt);
      PasswordHash.HexHasNoColon(e.salt);
      PasswordHash.SplitAt(salt, ':', PasswordHash.Hex(p.scrypt(Password(secrets, o), salt)));
    }
  }

  /** An upsert of a stored document moves its date exactly if it writes, and to now. */
  lemma UpdateDates(p: Params, secrets: Secrets, organization: string, members: seq<Member>, o: Object, d: Doc, e: Entropy)
    requires d.Key() == o.Key()
    ensures var r := Computed(p, secrets, organization, members, o, Some(d), e);
            r.Some? ==>
              match d
              case FeatureDoc(f) => r.value.doc.FeatureDoc? && r.value.doc.feature.dateUpdated == if r.value.wrote then e.now else f.dateUpdated
              case ConnectionDoc(c) => r.value.doc.ConnectionDoc? && r.value.doc.connection.dateUpdated == if r.value.wrote then e.now else c.dateUpdated
              case _ => true
  {
    var r := Computed(p, secrets, organization, members, o, Some(d), e);
    if o.spec.ClientSpec? && r.Some? {
      UpdatedConnectionDate(d.connection, ConnectionOf(secrets, o, organization).value, e.now,
                            KeyGenerator.GenerateKey("", e.key1), KeyGenerator.GenerateKey("", e.key2));
    }
  }

  lemma UpdatedConnectionDate(existing: SDKConnection, c: SDKConnection, now: Time, key1: string, key2: string)
    ensures var r := UpsertConnection(Some(existing), c, now, key1, key2);
            r.doc.dateUpdated == if r.wrote then now else existing.dateUpdated
  {
  }

  /** What a run is about: whether it must keep documents, what its calls may draw, the keys it may only delete,
      and the objects and secrets it works from, as far as they are known beforehand. */
  datatype Scope = Scope(strict: bool, draws: set<Entropy>, doomed: set<DocKey>, objects: map<nat, Object>, secrets: Secrets)

  /** Nothing known beforehand. */
  function Any(strict: bool, draws: set<Entropy>): Scope {
    Scope(strict, draws, {}, map[], map[])
  }

  /** The user's hash is of the password its secret holds. */
  ghost predicate Hashed(p: Params, secrets: Secrets, o: Object, d: Doc)
    requires o.spec.UserSpec?
  {
    d.UserDoc? && SecretGiven(secrets, o) && Verifies(d.user.passwordHash, Password(secrets, o), p.scrypt)
  }

  /** What is there has the identity it had, or is born of what the run draws; in a strict scope what was there is
      there, or doomed and gone; what is new is not doomed, and a new user's hash is of its password. */
  ghost predicate Continues(p: Params, c: Scope, before: Docs, after: Docs) {
    && Filed(after)
    && (forall k | k in after :: (k in before && SameIdentity(before[k], after[k])) || Born(c.draws, after[k]))
    && (c.strict ==> forall k | k in before && k !in c.doomed :: k in after && SameIdentity(before[k], after[k]))
    && (c.strict ==> forall k | k in after && k in c.doomed :: k in before && after[k] == before[k])
    && (c.strict ==> forall u | u in c.objects && c.objects[u].spec.UserSpec? && c.objects[u].Key() !in before && c.objects[u].Key() in after ::
            Hashed(p, c.secrets, c.objects[u], after[c.objects[u].Key()]))
  }

  lemma ContinuesReflexive(p: Params, c: Scope, docs: Docs)
    requires Filed(docs)
    ensures Continues(p, c, docs, docs)
  {
    assert forall k | k in docs :: SameIdentity(docs[k], docs[k]);
  }

  lemma SameIdentityTransitive(a: Doc, b: Doc, c: Doc)
    requires SameIdentity(a, b) && SameIdentity(b, c)
    ensures SameIdentity(a, c)
  {
  }

  lemma BornStays(draws: set<Entropy>, b: Doc, d: Doc)
    requires Born(draws, b) && SameIdentity(b, d)
    ensures Born(draws, d)
  {
    var e :| e in draws && BornOf(e, b);
    assert BornOf(e, d);
  }

  lemma ContinuesTransitive(p: Params, c: Scope, a: Docs, b: Docs, d: Docs)
    requires Continues(p, c, a, b) && Continues(p, c, b, d)
    ensures Continues(p, c, a, d)
  {
    forall k | k in a && k !in c.doomed && c.strict
      ensures k in d && SameIdentity(a[k], d[k])
    {
      SameIdentityTransitive(a[k], b[k], d[k]);
    }
    forall k | k in d
      ensures (k in a && SameIdentity(a[k], d[k])) || Born(c.draws, d[k])
    {
      if k in b && SameIdentity(b[k], d[k]) {
        if k in a && SameIdentity(a[k], b[k]) {
          SameIdentityTransitive(a[k], b[k], d[k]);
        } else {
          BornStays(c.draws, b[k], d[k]);
        }
      }
    }
  }

  /** Nobody else writes or removes documents. */
  predicate HandsOff(events: seq<Event>) {
    forall e | e in events :: !e.WriteDoc? && !e.RemoveDoc?
  }

  predicate HandsOffTicks(ticks: seq<Tick>) {
    forall t | t in ticks :: HandsOff(t.events)
  }

  predicate DrawsFrom(draws: set<Entropy>, ticks: seq<Tick>) {
    forall t | t in ticks :: t.entropy in draws
  }

  /** The state fits the scope: where objects are known nobody acts. */
  ghost predicate Fits(c: Scope, s: State) {
    && HandsOffTicks(s.ticks) && DrawsFrom(c.draws, s.ticks)
    && (c.objects != map[] ==> QuietTicks(s.ticks) && s.w.secrets == c.secrets)
  }

  /** The object is one the scope knows, if it knows any, and doomed exactly if prune deletes its document. */
  ghost predicate Suits(p: Params, c: Scope, i: Instance, o: Object) {
    && (c.strict ==> if p.prune then Retiring(i, o) <==> o.Key() in c.doomed else c.doomed == {})
    && forall u | u in c.objects && c.objects[u].Key() == o.Key() :: c.objects[u] == o.(finalizers := c.objects[u].finalizers)
  }

  /** From one state to a later one. */
  ghost predicate Goes(p: Params, c: Scope, s: State, r: State) {
    Fits(c, r) && (Filed(s.w.docs) ==> Continues(p, c, s.w.docs, r.w.docs))
  }

  lemma GoesTransitive(p: Params, c: Scope, s: State, t: State, r: State)
    requires Goes(p, c, s, t) && Goes(p, c, t, r)
    ensures Goes(p, c, s, r)
  {
    if Filed(s.w.docs) {
      ContinuesTransitive(p, c, s.w.docs, t.w.docs, r.w.docs);
    }
  }

  lemma {:induction false} EventsLeaveDocs(p: Params, w: World, events: seq<Event>)
    requires HandsOff(events)
    ensures AppliedAll(p, w, events).docs == w.docs
    decreases |events|
  {
    if events != [] {
      assert events[0] in events;
      EventsLeaveDocs(p, Applied(p, w, events[0]), events[1..]);
    }
  }

  /** A call that leaves the documents as they are. */
  lemma BeginLeavesDocs(p: Params, c: Scope, s: State)
    requires Fits(c, s)
    ensures var b := Begin(p, s).s; Fits(c, b) && b.w.docs == s.w.docs
  {
    if s.ticks != [] {
      assert s.ticks[0] in s.ticks;
      EventsLeaveDocs(p, s.w, s.ticks[0].events);
      if c.objects != map[] {
        BeginIsQuiet(p, s);
      }
    }
  }

  lemma PatchLeavesDocs(p: Params, c: Scope, s: State, uid: nat, finalizers: seq<string>)
    requires Fits(c, s)
    ensures var r := Patch(p, s, uid, finalizers).s; Fits(c, r) && r.w.docs == s.w.docs
  {
    BeginLeavesDocs(p, c, s);
  }

  lemma {:induction false} MarkAllLeavesDocs(p: Params, c: Scope, s: State, items: seq<Object>)
    requires Fits(c, s)
    ensures var r := MarkAll(p, s, items).s; Fits(c, r) && r.w.docs == s.w.docs
    decreases |items|
  {
    if items != [] {
      PatchLeavesDocs(p, c, s, items[0].uid, With(items[0].finalizers, p.finalizer));
      var a := AddFinalizer(p, s, items[0]);
      if a.ok {
        MarkAllLeavesDocs(p, c, if items[0].deleting then a.s else a.s.(catalog := Catalogued(a.s.catalog, items[0])), items[1..]);
      }
    }
  }

  lemma {:induction false} GatherLeavesDocs(p: Params, c: Scope, s: State, bindings: seq<Binding>)
    requires Fits(c, s)
    ensures var r := Gather(p, s, bindings).out.s; Fits(c, r) && r.w.docs == s.w.docs
    decreases |bindings|
  {
    if bindings != [] {
      BeginLeavesDocs(p, c, s);
      GatherLeavesDocs(p, c, Begin(p, s).s, bindings[1..]);
    }
  }

  lemma OthersContinue(draws: set<Entropy>, docs: Docs, k: DocKey, d: Doc)
    requires if k in docs then SameIdentity(docs[k], d) else Born(draws, d)
    ensures forall k' | k' in docs[k := d] :: (k' in docs && SameIdentity(docs[k'], docs[k := d][k'])) || Born(draws, docs[k := d][k'])
  {
  }

  lemma StoredContinues(p: Params, c: Scope, w: World, organization: string, members: seq<Member>, o: Object, e: Entropy)
    requires Filed(w.docs) && (c.strict ==> o.Key() !in c.doomed) && e in c.draws && (c.objects != map[] ==> w.secrets == c.secrets)
    requires forall u | u in c.objects && c.objects[u].Key() == o.Key() :: c.objects[u] == o.(finalizers := c.objects[u].finalizers)
    requires Computed(p, w.secrets, organization, members, o, Get(w.docs, o.Key()), e).Some?
    ensures var r := Computed(p, w.secrets, organization, members, o, Get(w.docs, o.Key()), e).value;
            Continues(p, c, w.docs, w.docs[o.Key() := r.doc])
  {
    var k := o.Key();
    var r := Computed(p, w.secrets, organization, members, o, Get(w.docs, k), e).value;
    ComputedConnection(p, w.secrets, organization, members, o, Get(w.docs, k), e);
    if k in w.docs {
      UpsertKeepsIdentity(p, w.secrets, organization, members, o, w.docs[k], e);
    } else {
      InsertIsBorn(p, w.secrets, organization, members, o, None, e);
    }
    OthersContinue(c.draws, w.docs, k, r.doc);
    forall u | u in c.objects && c.objects[u].spec.UserSpec? && c.objects[u].Key() !in w.docs && c.objects[u].Key() in w.docs[k := r.doc]
      ensures Hashed(p, c.secrets, c.objects[u], w.docs[k := r.doc][c.objects[u].Key()])
    {
      UserUpsertConforms(p, w.secrets, organization, members, o, None, e);
    }
  }

  lemma PutGoes(p: Params, c: Scope, s: State, i: Instance, organization: string, members: seq<Member>, o: Object)
    requires Fits(c, s) && Suits(p, c, i, o) && !Retiring(i, o)
    ensures Goes(p, c, s, Put(p, s, organization, members, o).s)
  {
    BeginLeavesDocs(p, c, s);
    var b := Begin(p, s);
    if Filed(s.w.docs) {
      ContinuesReflexive(p, c, s.w.docs);
      if b.ok {
        var e := s.ticks[0].entropy;
        var r := Computed(p, b.s.w.secrets, organization, members, o, Get(b.s.w.docs, o.Key()), e);
        if r.Some? {
          StoredContinues(p, c, b.s.w, organization, members, o, e);
          BeginLeavesDocs(p, c, b.s.(w := Stored(b.s.w, o.Key(), r.value)));
        }
      }
    } else if b.ok {
      var r := Computed(p, b.s.w.secrets, organization, members, o, Get(b.s.w.docs, o.Key()), s.ticks[0].entropy);
      if r.Some? {
        BeginLeavesDocs(p, c, b.s.(w := Stored(b.s.w, o.Key(), r.value)));
      }
    }
  }

  lemma RetireGoes(p: Params, c: Scope, s: State, i: Instance, o: Object)
    requires Fits(c, s) && Suits(p, c, i, o) && Retiring(i, o)
    ensures Goes(p, c, s, Retire(p, s, o).s)
  {
    var d := if p.prune then Purge(p, s, o.Key()) else Outcome(s, true);
    BeginLeavesDocs(p, c, s);
    if Filed(s.w.docs) {
      ContinuesReflexive(p, c, s.w.docs);
    }
    if d.ok {
      PatchLeavesDocs(p, c, d.s, o.uid, Without(o.finalizers, p.finalizer));
    }
  }

  lemma SettleOneGoes(p: Params, c: Scope, s: State, i: Instance, organization: string, o: Object)
    requires Fits(c, s) && Suits(p, c, i, o)
    ensures Goes(p, c, s, SettleOne(p, s, i, organization, o).s)
  {
    var g := if o.spec.OrganizationSpec? then Gather(p, s, o.spec.bindings) else Gathered(Outcome(s, true), []);
    if o.spec.OrganizationSpec? {
      GatherLeavesDocs(p, c, s, o.spec.bindings);
    }
    if Filed(s.w.docs) {
      ContinuesReflexive(p, c, s.w.docs);
    }
    if g.out.ok && Retiring(i, o) {
      RetireGoes(p, c, g.out.s, i, o);
    } else if g.out.ok {
      PutGoes(p, c, g.out.s, i, organization, g.members, o);
    }
  }

  lemma {:induction false} SettleAllGoes(p: Params, c: Scope, s: State, i: Instance, organization: string, items: seq<Object>)
    requires Fits(c, s) && forall o | o in items :: Suits(p, c, i, o)
    ensures Goes(p, c, s, SettleAll(p, s, i, organization, items).s)
    decreases |items|
  {
    if items == [] {
      if Filed(s.w.docs) {
        ContinuesReflexive(p, c, s.w.docs);
      }
    } else {
      SettleOneGoes(p, c, s, i, organization, items[0]);
      var a := SettleOne(p, s, i, organization, items[0]);
      if a.ok {
        SettleAllGoes(p, c, a.s, i, organization, items[1..]);
        GoesTransitive(p, c, s, a.s, SettleAll(p, s, i, organization, items).s);
      }
    }
  }

  lemma ProcessGoes(p: Params, c: Scope, s: State, i: Instance, organization: string, items: seq<Object>)
    requires Fits(c, s) && forall o | o in items :: Suits(p, c, i, o)
    ensures Goes(p, c, s, Process(p, s, i, organization, items).s)
  {
    MarkAllLeavesDocs(p, c, s, items);
    var m := if i.deleting then Outcome(s, true) else MarkAll(p, s, items);
    if m.ok {
      SettleAllGoes(p, c, m.s, i, organization, items);
    } else if Filed(s.w.docs) {
      ContinuesReflexive(p, c, s.w.docs);
    }
  }

  ghost predicate Blank(p: Params, c: Scope) {
    c.objects == map[] && c.doomed == {} && (c.strict ==> !p.prune)
  }

  /** Every object a listing can return suits: without prune and known objects any does, else nobody acts. */
  ghost predicate Scoped(p: Params, c: Scope, s: State, i: Instance) {
    && Fits(c, s)
    && (Blank(p, c) || (QuietTicks(s.ticks) && WF(s.w) && forall u | u in s.w.objects :: Suits(p, c, i, s.w.objects[u])))
  }

  lemma SuitsLater(p: Params, c: Scope, w: World, w': World, i: Instance)
    requires Isolates(p, w, w') && forall u | u in w.objects :: Suits(p, c, i, w.objects[u])
    ensures forall u | u in w'.objects :: Suits(p, c, i, w'.objects[u])
  {
    forall u | u in w'.objects
      ensures Suits(p, c, i, w'.objects[u])
    {
      assert Suits(p, c, i, w.objects[u]) && w'.objects[u].Key() == w.objects[u].Key();
    }
  }

  lemma SnapshotSuits(p: Params, c: Scope, s: State, i: Instance, kind: Kind, selector: Option<LabelSelector>)
    requires Scoped(p, c, s, i)
    ensures forall o | o in Snapshot(p, s, kind, selector) :: Suits(p, c, i, o)
  {
    if !Blank(p, c) {
      BeginIsQuiet(p, s);
      ListMembers(s.w, kind, selector);
    }
  }

  lemma ReconcileKindGoes(p: Params, c: Scope, s: State, i: Instance, kind: Kind, selector: Option<LabelSelector>, organization: string)
    requires Scoped(p, c, s, i)
    ensures var r := ReconcileKind(p, s, i, kind, selector, organization).s; Scoped(p, c, r, i) && Goes(p, c, s, r)
  {
    BeginLeavesDocs(p, c, s);
    SnapshotSuits(p, c, s, i, kind, selector);
    if Filed(s.w.docs) {
      ContinuesReflexive(p, c, s.w.docs);
    }
    var b, r := Begin(p, s), ReconcileKind(p, s, i, kind, selector, organization);
    if b.ok && Convertible(selector) && Convertible(p.selector) {
      ProcessGoes(p, c, b.s, i, organization, Snapshot(p, s, kind, selector));
    }
    if !Blank(p, c) {
      ReconcileKindIsQuiet(p, s, i, kind, selector, organization);
      SuitsLater(p, c, s.w, r.s.w, i);
    }
  }

  lemma {:induction false} ReconcileOwnedGoes(p: Params, c: Scope, s: State, i: Instance, orgs: seq<Object>)
    requires Scoped(p, c, s, i) && forall o | o in orgs :: o.spec.OrganizationSpec?
    ensures Goes(p, c, s, ReconcileOwned(p, s, i, orgs).s)
    decreases |orgs|
  {
    if orgs == [] {
      if Filed(s.w.docs) {
        ContinuesReflexive(p, c, s.w.docs);
      }
    } else {
      var selector, id := orgs[0].spec.resourceSelector, orgs[0].Id();
      ReconcileKindGoes(p, c, s, i, FeatureKind, selector, id);
      var f, r := ReconcileKind(p, s, i, FeatureKind, selector, id), ReconcileOwned(p, s, i, orgs).s;
      if f.ok {
        ReconcileKindGoes(p, c, f.s, i, ClientKind, selector, id);
        var t := ReconcileKind(p, f.s, i, ClientKind, selector, id);
        GoesTransitive(p, c, s, f.s, t.s);
        if t.ok {
          ReconcileOwnedGoes(p, c, t.s, i, orgs[1..]);
          GoesTransitive(p, c, s, t.s, r);
        }
      }
    }
  }

  lemma ReconcileAllGoes(p: Params, c: Scope, s: State, i: Instance)
    requires Scoped(p, c, s, i)
    ensures Goes(p, c, s, ReconcileAll(p, s, i).s)
  {
    var s0 := s.(catalog := []);
    ReconcileKindGoes(p, c, s0, i, UserKind, p.selector, "");
    var u, r := ReconcileKind(p, s0, i, UserKind, p.selector, ""), ReconcileAll(p, s, i).s;
    if u.ok {
      ReconcileKindGoes(p, c, u.s, i, OrganizationKind, p.selector, "");
      var o := ReconcileKind(p, u.s, i, OrganizationKind, p.selector, "");
      GoesTransitive(p, c, s, u.s, o.s);
      if o.ok {
        SnapshotKinds(p, u.s, p.selector);
        ReconcileOwnedGoes(p, c, o.s, i, Snapshot(p, u.s, OrganizationKind, p.selector));
        GoesTransitive(p, c, s, o.s, r);
      }
    }
  }

  lemma PatchInstanceLeavesDocs(p: Params, c: Scope, s: State, finalizers: seq<string>)
    requires Fits(c, s)
    ensures var r := PatchInstance(p, s, finalizers).s; Fits(c, r) && r.w.docs == s.w.docs && r.w.objects == Begin(p, s).s.w.objects
  {
    BeginLeavesDocs(p, c, s);
  }

  lemma ReconcileGoes(p: Params, c: Scope, s: State)
    requires Fits(c, s) && Filed(s.w.docs)
    requires var b := Begin(p, s).s; b.w.instance.Some? ==> Scoped(p, c, b, b.w.instance.value)
    ensures Continues(p, c, s.w.docs, Reconcile(p, s).s.w.docs)
  {
    BeginLeavesDocs(p, c, s);
    ContinuesReflexive(p, c, s.w.docs);
    var b := Begin(p, s);
    if b.ok && b.s.w.instance.Some? && !p.suspend {
      var i := b.s.w.instance.value;
      PatchInstanceLeavesDocs(p, c, b.s, With(i.finalizers, FinalizerNames.FINALIZER));
      var m := if i.deleting then b else PatchInstance(p, b.s, With(i.finalizers, FinalizerNames.FINALIZER));
      if m.ok {
        OpeningIsScoped(p, c, b.s, i);
        ReconcileAllGoes(p, c, m.s, i);
        PatchInstanceLeavesDocs(p, c, ReconcileAll(p, m.s, i).s, Without(i.finalizers, FinalizerNames.FINALIZER));
      }
    }
  }

  lemma OpeningIsScoped(p: Params, c: Scope, s: State, i: Instance)
    requires Scoped(p, c, s, i)
    ensures Scoped(p, c, PatchInstance(p, s, With(i.finalizers, FinalizerNames.FINALIZER)).s, i)
  {
    PatchInstanceLeavesDocs(p, c, s, With(i.finalizers, FinalizerNames.FINALIZER));
    if !Blank(p, c) {
      PatchInstanceIsQuiet(p, s, With(i.finalizers, FinalizerNames.FINALIZER));
    }
  }

  predicate HandsOffRound(r: Round) {
    match r
    case Attempt(ticks) => HandsOffTicks(ticks)
    case Interval(events) => HandsOff(events)
  }

  /** What the calls of a run draw. */
  function DrawsOf(rounds: seq<Round>): set<Entropy> {
    set r, t | r in rounds && r.Attempt? && t in r.ticks :: t.entropy
  }

  lemma {:induction false} RunContinues(p: Params, c: Scope, w: World, rounds: seq<Round>)
    requires Blank(p, c) && Filed(w.docs) && (forall r | r in rounds :: HandsOffRound(r)) && DrawsOf(rounds) <= c.draws
    ensures Continues(p, c, w.docs, Run(p, w, rounds).docs)
    decreases |rounds|
  {
    ContinuesReflexive(p, c, w.docs);
    if rounds != [] {
      var v := After(p, w, rounds[0]);
      assert HandsOffRound(rounds[0]);
      match rounds[0] {
        case Attempt(ticks) =>
          assert forall t | t in ticks :: t.entropy in DrawsOf(rounds);
          BeginLeavesDocs(p, c, State(w, ticks, []));
          ReconcileGoes(p, c, State(w, ticks, []));
        case Interval(events) =>
          EventsLeaveDocs(p, w, events);
      }
      assert DrawsOf(rounds[1..]) <= DrawsOf(rounds);
      RunContinues(p, c, v, rounds[1..]);
      ContinuesTransitive(p, c, w.docs, v.docs, Run(p, w, rounds).docs);
    }
  }

  /** Without prune, over every run with faults at any call and acts of others between any two, every document
      that was there is there, with the same identity, as long as nobody else writes or removes documents. */
  lemma IdentityOverRuns(p: Params, w: World, rounds: seq<Round>)
    requires !p.prune && Filed(w.docs) && forall r | r in rounds :: HandsOffRound(r)
    ensures var x := Run(p, w, rounds); forall k | k in w.docs :: k in x.docs && SameIdentity(w.docs[k], x.docs[k])
  {
    RunContinues(p, Any(true, DrawsOf(rounds)), w, rounds);
  }

  /** With prune or without, over every such run, a document that is there at the end has the identity it had at the
      start, or was born of what some call of the run drew. */
  lemma DocumentsAreOldOrBorn(p: Params, w: World, rounds: seq<Round>)
    requires Filed(w.docs) && forall r | r in rounds :: HandsOffRound(r)
    ensures var x := Run(p, w, rounds);
            forall k | k in x.docs :: (k in w.docs && SameIdentity(w.docs[k], x.docs[k])) || Born(DrawsOf(rounds), x.docs[k])
  {
    RunContinues(p, Any(false, DrawsOf(rounds)), w, rounds);
  }

  /** So every connection such a run inserts has two alphanumeric keys of 1 to 43 characters, made from 32 random
      bytes each, and keeps them. */
  lemma InsertedConnectionsHaveKeys(p: Params, w: World, rounds: seq<Round>, k: DocKey)
    requires Filed(w.docs) && forall r | r in rounds :: HandsOffRound(r)
    requires forall e | e in DrawsOf(rounds) :: |e.key1| == 32 && |e.key2| == 32
    requires k !in w.docs && k in Run(p, w, rounds).docs && k.kind == ClientKind
    ensures var d := Run(p, w, rounds).docs[k];
            && d.ConnectionDoc?
            && (forall c | c in d.connection.encryptionKey + d.connection.signingKey :: KeyGenerator.Alphanumeric(c))
            && 1 <= |d.connection.encryptionKey| <= 43 && 1 <= |d.connection.signingKey| <= 43
            && exists e | e in DrawsOf(rounds) :: BornOf(e, d)
  {
    RunContinues(p, Any(false, DrawsOf(rounds)), w, rounds);
    var d := Run(p, w, rounds).docs[k];
    assert d.Key() == k;
    var e :| e in DrawsOf(rounds) && BornOf(e, d);
    KeyGenerator.GeneratedKeyBounds(e.key1);
    KeyGenerator.GeneratedKeyBounds(e.key2);
  }

  /** What undisturbed passes over a world are about. */
  ghost function ScopeOf(p: Params, w: World, i: Instance, draws: set<Entropy>): Scope {
    Scope(true, draws, set u | u in w.objects && p.prune && Retiring(i, w.objects[u]) :: w.objects[u].Key(), w.objects, w.secrets)
  }

  lemma WorldSuits(p: Params, w: World, v: World, i: Instance, j: Instance, draws: set<Entropy>)
    requires WF(w) && Isolates(p, w, v) && i.deleting == j.deleting
    ensures forall u | u in v.objects :: Suits(p, ScopeOf(p, w, i, draws), j, v.objects[u])
  {
    var c := ScopeOf(p, w, i, draws);
    forall u | u in v.objects
      ensures Suits(p, c, j, v.objects[u])
    {
      var o := w.objects[u];
      assert v.objects[u].Key() == o.Key();
      assert p.prune && o.Key() in c.doomed ==> exists u' | u' in w.objects :: Retiring(i, w.objects[u']) && w.objects[u'].Key() == o.Key();
    }
  }

  /** An undisturbed pass over a world reached from w without a disturbance. */
  lemma QuietPassContinues(p: Params, w: World, i: Instance, v: World, ticks: seq<Tick>, draws: set<Entropy>)
    requires WF(w) && WF(v) && Isolates(p, w, v) && Filed(v.docs) && QuietTicks(ticks) && DrawsFrom(draws, ticks)
    requires v.instance.Some? ==> v.instance.value.deleting == i.deleting
    ensures Continues(p, ScopeOf(p, w, i, draws), v.docs, Reconcile(p, State(v, ticks, [])).s.w.docs)
  {
    var c, s := ScopeOf(p, w, i, draws), State(v, ticks, []);
    BeginIsQuiet(p, s);
    if v.instance.Some? {
      WorldSuits(p, w, v, i, v.instance.value, draws);
      ReconcileGoes(p, c, s);
    } else {
      ContinuesReflexive(p, c, v.docs);
    }
  }
}
