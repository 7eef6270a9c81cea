/**
 The document store: the operations of storage.Collection on a list of documents per collection, and the
 upserts written with them. Nothing in the store itself keeps ids unique.
 */
module DatabaseModel {
  import opened Wrappers
  import opened Documents
  import opened FeatureMerge
  import opened Upserts

  ghost predicate UniqueIds(docs: seq<Doc>) {
    forall i, j | 0 <= i < j < |docs| :: docs[i].Key() != docs[j].Key()
  }

  /** The documents by key; of several with one key, the one FindOne returns. */
  function View(docs: seq<Doc>): Docs {
    if docs == [] then map[] else View(docs[1..])[docs[0].Key() := docs[0]]
  }

  function Replaced(docs: seq<Doc>, key: DocKey, doc: Doc): seq<Doc> {
    if docs == [] then []
    else if docs[0].Key() == key then [doc] + docs[1..]
    else [docs[0]] + Replaced(docs[1..], key, doc)
  }

  function Removed(docs: seq<Doc>, key: DocKey): seq<Doc> {
    if docs == [] then []
    else if docs[0].Key() == key then docs[1..]
    else [docs[0]] + Removed(docs[1..], key)
  }

  lemma {:induction false} ViewKeys(docs: seq<Doc>)
    ensures forall k :: k in View(docs) <==> exists i | 0 <= i < |docs| :: docs[i].Key() == k
    ensures forall k | k in View(docs) :: View(docs)[k] in docs && View(docs)[k].Key() == k
  {
    if docs != [] {
      ViewKeys(docs[1..]);
      forall k
        ensures k in View(docs) <==> exists i | 0 <= i < |docs| :: docs[i].Key() == k
      {
        if k in View(docs[1..]) {
          var i :| 0 <= i < |docs[1..]| && docs[1..][i].Key() == k;
          assert docs[i + 1].Key() == k;
        }
        if k == docs[0].Key() {
          assert docs[0].Key() == k;
        }
      }
    }
  }

  lemma InsertKeepsUnique(docs: seq<Doc>, doc: Doc)
    requires UniqueIds(docs) && doc.Key() !in View(docs)
    ensures UniqueIds(docs + [doc])
  {
    ViewKeys(docs);
  }

  lemma {:induction false} ViewOfInsert(docs: seq<Doc>, doc: Doc)
    requires UniqueIds(docs) && doc.Key() !in View(docs)
    ensures View(docs + [doc]) == View(docs)[doc.Key() := doc]
  {
    if docs == [] {
      assert docs + [doc] == [doc];
      assert View([doc]) == map[][doc.Key() := doc];
    } else {
      assert (docs + [doc])[1..] == docs[1..] + [doc];
      ViewOfInsert(docs[1..], doc);
    }
  }

  /** An insert of an absent key adds one document and keeps ids unique. */
  lemma Inserting(docs: seq<Doc>, doc: Doc)
    requires UniqueIds(docs) && doc.Key() !in View(docs)
    ensures View(docs + [doc]) == View(docs)[doc.Key() := doc]
    ensures UniqueIds(docs + [doc])
  {
    ViewOfInsert(docs, doc);
    InsertKeepsUnique(docs, doc);
  }

  lemma {:induction false} ReplacedElements(docs: seq<Doc>, key: DocKey, doc: Doc)
    requires UniqueIds(docs)
    ensures |Replaced(docs, key, doc)| == |docs|
    ensures forall i | 0 <= i < |docs| :: Replaced(docs, key, doc)[i] == if docs[i].Key() == key then doc else docs[i]
  {
    if docs != [] && docs[0].Key() != key {
      ReplacedElements(docs[1..], key, doc);
    }
  }

  lemma {:induction false} ViewOfReplaced(docs: seq<Doc>, key: DocKey, doc: Doc)
    requires doc.Key() == key && key in View(docs)
    ensures View(Replaced(docs, key, doc)) == View(docs)[key := doc]
  {
    if docs[0].Key() == key {
      assert ([doc] + docs[1..])[1..] == docs[1..];
    } else {
      ViewOfReplaced(docs[1..], key, doc);
      var rest := Replaced(docs[1..], key, doc);
      assert ([docs[0]] + rest)[1..] == rest;
    }
  }

  lemma Replacing(docs: seq<Doc>, key: DocKey, doc: Doc)
    requires UniqueIds(docs) && doc.Key() == key && key in View(docs)
    ensures View(Replaced(docs, key, doc)) == View(docs)[key := doc]
    ensures |Replaced(docs, key, doc)| == |docs|
    ensures UniqueIds(Replaced(docs, key, doc))
  {
    ReplacedElements(docs, key, doc);
    ViewOfReplaced(docs, key, doc);
  }

  lemma {:induction false} Removing(docs: seq<Doc>, key: DocKey)
    requires UniqueIds(docs)
    ensures View(Removed(docs, key)) == View(docs) - {key}
    ensures UniqueIds(Removed(docs, key))
    ensures forall d | d in Removed(docs, key) :: d in docs
  {
    if docs != [] {
      ViewKeys(docs[1..]);
      var k, rest := docs[0].Key(), Removed(docs[1..], key);
      if k == key {
        assert key !in View(docs[1..]) by {
          assert forall i | 0 <= i < |docs[1..]| :: docs[1..][i].Key() != key;
        }
        assert View(docs[1..])[k := docs[0]] - {key} == View(docs[1..]);
      } else {
        Removing(docs[1..], key);
        assert View(docs[1..])[k := docs[0]] - {key} == (View(docs[1..]) - {key})[k := docs[0]];
        assert ([docs[0]] + rest)[1..] == rest;
        assert forall d | d in rest :: d.Key() != k;
      }
    }
  }

  lemma {:induction false} ReplacedAt(docs: seq<Doc>, key: DocKey, doc: Doc, i: nat)
    requires i < |docs| && docs[i].Key() == key
    requires forall j | 0 <= j < i :: docs[j].Key() != key
    ensures Replaced(docs, key, doc) == docs[i := doc]
  {
    if i > 0 {
      ReplacedAt(docs[1..], key, doc, i - 1);
      assert [docs[0]] + docs[1..][i - 1 := doc] == docs[i := doc];
    }
  }

  lemma {:induction false} RemovedAt(docs: seq<Doc>, key: DocKey, i: nat)
    requires i <= |docs|
    requires i < |docs| ==> docs[i].Key() == key
    requires forall j | 0 <= j < i :: docs[j].Key() != key
    ensures Removed(docs, key) == if i < |docs| then docs[..i] + docs[i + 1..] else docs
  {
    if i > 0 {
      var rest := docs[1..];
      RemovedAt(rest, key, i - 1);
      if i < |docs| {
        assert rest[..i - 1] == docs[1..i] && rest[i..] == docs[i + 1..];
        assert [docs[0]] + (docs[1..i] + docs[i + 1..]) == docs[..i] + docs[i + 1..];
      } else {
        assert [docs[0]] + rest == docs;
      }
    }
  }

  /** What the controller ever does to a collection: an upsert that inserts or replaces, or a delete. */
  datatype StoreOp = Upsert(doc: Doc) | Delete(key: DocKey)

  function StoreRun(docs: seq<Doc>, ops: seq<StoreOp>): seq<Doc>
    decreases |ops|
  {
    if ops == [] then docs
    else
      var docs' := match ops[0]
        case Upsert(doc) => if doc.Key() in View(docs) then Replaced(docs, doc.Key(), doc) else docs + [doc]
        case Delete(key) => Removed(docs, key);
      StoreRun(docs', ops[1..])
  }

  function ViewRun(docs: Docs, ops: seq<StoreOp>): Docs
    decreases |ops|
  {
    if ops == [] then docs
    else ViewRun(match ops[0] case Upsert(doc) => docs[doc.Key() := doc] case Delete(key) => docs - {key}, ops[1..])
  }

  /** Starting from at most one document per id no run creates a second, so the list behaves as a map. */
  lemma {:induction false} RunsKeepIdsUnique(docs: seq<Doc>, ops: seq<StoreOp>)
    requires UniqueIds(docs)
    ensures UniqueIds(StoreRun(docs, ops)) && View(StoreRun(docs, ops)) == ViewRun(View(docs), ops)
    decreases |ops|
  {
    if ops != [] {
      match ops[0]
      case Upsert(doc) =>
        if doc.Key() in View(docs) {
          Replacing(docs, doc.Key(), doc);
          RunsKeepIdsUnique(Replaced(docs, doc.Key(), doc), ops[1..]);
        } else {
          Inserting(docs, doc);
          RunsKeepIdsUnique(docs + [doc], ops[1..]);
        }
      case Delete(key) =>
        Removing(docs, key);
        RunsKeepIdsUnique(Removed(docs, key), ops[1..]);
    }
  }

  /** The payloads a clear of one environment of one organization leaves. */
  function Cleared(payloads: seq<Payload>, environment: string, organization: string): seq<Payload> {
    if payloads == [] then []
    else
      (if payloads[0].environment == environment && payloads[0].organization == organization then [] else [payloads[0]])
      + Cleared(payloads[1..], environment, organization)
  }

  lemma {:induction false} ClearedExactly(payloads: seq<Payload>, environment: string, organization: string)
    ensures forall p :: p in Cleared(payloads, environment, organization) <==>
                        p in payloads && !(p.environment == environment && p.organization == organization)
  {
    if payloads != [] {
      ClearedExactly(payloads[1..], environment, organization);
    }
  }

  lemma ClearedStep(payloads: seq<Payload>, i: nat, environment: string, organization: string)
    requires i < |payloads|
    ensures Cleared(payloads[i..], environment, organization) ==
            (if payloads[i].environment == environment && payloads[i].organization == organization then [] else [payloads[i]])
            + Cleared(payloads[i + 1..], environment, organization)
  {
    assert payloads[i..][1..] == payloads[i + 1..];
  }

  class Database {
    var docs: seq<Doc>
    var payloads: seq<Payload>

    ghost predicate Valid()
      reads this
    {
      UniqueIds(docs)
    }

    constructor ()
      ensures Valid() && docs == [] && payloads == []
    {
      docs, payloads := [], [];
    }

    method FindOne(key: DocKey) returns (found: Option<Doc>)
      ensures found == Get(View(docs), key)
    {
      for i := 0 to |docs|
        invariant Get(View(docs), key) == Get(View(docs[i..]), key)
      {
        if docs[i].Key() == key {
          return Some(docs[i]);
        }
        assert docs[i..][1..] == docs[i + 1..];
      }
      return None;
    }

    method InsertOne(doc: Doc)
      requires Valid() && doc.Key() !in View(docs)
      modifies this`docs
      ensures Valid() && View(docs) == old(View(docs))[doc.Key() := doc]
      ensures docs == old(docs) + [doc]
    {
      Inserting(docs, doc);
      docs := docs + [doc];
    }

    method UpdateOne(key: DocKey, doc: Doc)
      requires Valid() && key in View(docs) && doc.Key() == key
      modifies this`docs
      ensures Valid() && View(docs) == old(View(docs))[key := doc]
      ensures docs == Replaced(old(docs), key, doc) && |docs| == old(|docs|)
    {
      Replacing(docs, key, doc);
      ViewKeys(docs);
      var i := 0;
      while docs[i].Key() != key
        invariant 0 <= i < |docs|
        invariant forall j | 0 <= j < i :: docs[j].Key() != key
        decreases |docs| - i
      {
        i := i + 1;
      }
      ReplacedAt(docs, key, doc, i);
      docs := docs[i := doc];
    }

    method DeleteOne(key: DocKey)
      requires Valid()
      modifies this`docs
      ensures Valid() && View(docs) == old(View(docs)) - {key}
      ensures docs == Removed(old(docs), key)
    {
      Removing(docs, key);
      var i := 0;
      while i < |docs| && docs[i].Key() != key
        invariant 0 <= i <= |docs|
        invariant forall j | 0 <= j < i :: docs[j].Key() != key
      {
        i := i + 1;
      }
      RemovedAt(docs, key, i);
      if i < |docs| {
        docs := docs[..i] + docs[i + 1..];
      }
    }

    method DeleteMany(environment: string, organization: string)
      modifies this`payloads
      ensures payloads == Cleared(old(payloads), environment, organization)
    {
      var all, kept := payloads, [];
      for i := 0 to |all|
        invariant payloads == all
        invariant kept + Cleared(all[i..], environment, organization) == Cleared(all, environment, organization)
      {
        ClearedStep(all, i, environment, organization);
        if !(all[i].environment == environment && all[i].organization == organization) {
          kept := kept + [all[i]];
        }
      }
      payloads := kept;
    }

    method UpdateUser(user: User) returns (wrote: bool)
      requires Valid()
      modifies this`docs
      ensures Valid()
      ensures var key := DocKey(UserKind, user.id);
              var existing := Get(old(View(docs)), key);
              var r := UpsertUser(AsUser(existing), user);
              wrote == r.wrote && View(docs) == old(View(docs))[key := UserDoc(r.doc)]
      ensures !wrote ==> docs == old(docs)
    {
      ViewKeys(docs);
      var key := DocKey(UserKind, user.id);
      var found := FindOne(key);
      if found.None? {
        InsertOne(UserDoc(user));
        return true;
      }
      var existing := found.value.user;
      var before := existing;
      existing := existing.(id := user.id);
      existing := existing.(email := user.email);
      existing := existing.(name := user.name);
      if before == existing {
        return false;
      }
      UpdateOne(key, UserDoc(existing));
      return true;
    }

    method UpdateOrganization(org: Organization, now: Time) returns (wrote: bool)
      requires Valid()
      modifies this`docs
      ensures Valid()
      ensures var key := DocKey(OrganizationKind, org.id);
              var existing := Get(old(View(docs)), key);
              var r := UpsertOrganization(AsOrganization(existing), org, now);
              wrote == r.wrote && View(docs) == old(View(docs))[key := OrganizationDoc(r.doc)]
      ensures !wrote ==> docs == old(docs)
    {
      ViewKeys(docs);
      var key := DocKey(OrganizationKind, org.id);
      var found := FindOne(key);
      if found.None? {
        var created := org;
        if created.members.Nil? {
          created := created.(members := Items([]));
        }
        created := created.(dateCreated := now);
        InsertOne(OrganizationDoc(created));
        return true;
      }
      var existing := found.value.organization;
      var before := existing;
      existing := existing.(id := org.id);
      existing := existing.(ownerEmail := org.ownerEmail);
      existing := existing.(name := org.name);
      if !org.members.Nil? {
        existing := existing.(members := org.members);
      }
      if before == existing {
        return false;
      }
      UpdateOne(key, OrganizationDoc(existing));
      return true;
    }

    method UpdateFeature(f: Feature, now: Time, reordered: bool) returns (wrote: bool)
      requires Valid() && f.environmentSettings.Some?
      modifies this`docs
      ensures Valid()
      ensures var key := DocKey(FeatureKind, f.id);
              var existing := Get(old(View(docs)), key);
              var r := UpsertFeature(AsFeature(existing), f, now, reordered);
              wrote == r.wrote && View(docs) == old(View(docs))[key := FeatureDoc(r.doc)]
      ensures !wrote ==> docs == old(docs)
    {
      ViewKeys(docs);
      var key := DocKey(FeatureKind, f.id);
      var found := FindOne(key);
      if found.None? {
        InsertOne(FeatureDoc(f.(dateCreated := now, dateUpdated := now)));
        return true;
      }
      var existing := found.value.feature;
      var before := existing;
      existing := existing.(id := f.id);
      existing := existing.(description := f.description);
      existing := existing.(defaultValue := f.defaultValue);
      existing := existing.(valueType := f.valueType);
      existing := existing.(tags := f.tags);
      existing := existing.(environments := f.environments);
      if existing.environmentSettings.None? {
        existing := existing.(environmentSettings := Some(map[]));
      }
      var settings := MergeEnvironments(existing.environmentSettings.value, f.environmentSettings.value);
      existing := existing.(environmentSettings := Some(settings));
      if before == existing && !(reordered && |settings| >= 2) {
        return false;
      }
      existing := existing.(dateUpdated := now);
      UpdateOne(key, FeatureDoc(existing));
      return true;
    }

    method WriteSDKConnection(c: SDKConnection, now: Time, encryptionKey: string, signingKey: string) returns (wrote: bool)
      requires Valid()
      modifies this`docs
      ensures Valid()
      ensures var key := DocKey(ClientKind, c.id);
              var existing := Get(old(View(docs)), key);
              var r := UpsertConnection(AsConnection(existing), c, now, encryptionKey, signingKey);
              wrote == r.wrote && View(docs) == old(View(docs))[key := ConnectionDoc(r.doc)]
      ensures !wrote ==> docs == old(docs)
    {
      ViewKeys(docs);
      var key := DocKey(ClientKind, c.id);
      var found := FindOne(key);
      if found.None? {
        var created := c.(dateCreated := now, dateUpdated := now);
        created := created.(encryptionKey := encryptionKey, signingKey := signingKey);
        InsertOne(ConnectionDoc(created));
        return true;
      }
      var existing := found.value.connection;
      var before := existing;
      existing := existing.(id := c.id);
      existing := existing.(key := c.key);
      existing := existing.(languages := c.languages);
      existing := existing.(name := c.name);
      existing := existing.(environment := c.environment);
      existing := existing.(encryptPayload := c.encryptPayload);
      existing := existing.(organization := c.organization);
      existing := existing.(project := c.project);
      existing := existing.(includeVisualExperiments := c.includeVisualExperiments);
      existing := existing.(includeDraftExperiments := c.includeDraftExperiments);
      if before == existing {
        return false;
      }
      existing := existing.(dateUpdated := now);
      UpdateOne(key, ConnectionDoc(existing));
      return true;
    }
  }
}
