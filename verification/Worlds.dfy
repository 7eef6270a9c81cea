/**
 The two stores the controller works between, and everything else that acts on them: users creating and
 deleting resources, other controllers, GrowthBook itself. One namespace, seen from one instance.
 */
module Worlds {
  import opened Wrappers
  import opened Documents
  import opened Selectors
  import opened Resources

  type Secrets = map<string, map<string, string>>

  /** What stays fixed during a run: the instance's spec, the finalizer it puts on objects, and the library
      functions left open. */
  datatype Params = Params(
    finalizer: string,
    prune: bool,
    suspend: bool,
    selector: Option<LabelSelector>,
    parse: string -> real,
    scrypt: (string, string) -> seq<KeyGenerator.Byte>)

  import KeyGenerator

  /** The instance object's own metadata. */
  datatype Instance = Instance(finalizers: seq<string>, deleting: bool)

  /** The keys of objects are their uids, handed out in order. The arrangement is the order lists come in. History: foreign holds the keys whose document was
      last written by somebody else, clock counts the controller's writes, and stamps holds when it last wrote
      each document that nobody else wrote since. */
  datatype World = World(
    objects: map<nat, Object>,
    nextUid: nat,
    arrangement: seq<nat>,
    instance: Option<Instance>,
    docs: Docs,
    payloads: seq<Payload>,
    secrets: Secrets,
    foreign: set<DocKey>,
    clock: nat,
    stamps: map<DocKey, nat>)

  ghost predicate WF(w: World) {
    && (forall u | u in w.objects :: w.objects[u].uid == u && u < w.nextUid)
    && (forall u | u in w.objects :: w.objects[u].deleting ==> w.objects[u].finalizers != [])
    && (forall u, v | u in w.objects && v in w.objects && u != v :: w.objects[u].Key() != w.objects[v].Key())
  }

  /** The documents the controller wrote last. */
  function Owned(w: World): set<DocKey> {
    w.docs.Keys - w.foreign
  }

  predicate Picked(o: Object, kind: Kind, selector: Option<LabelSelector>) {
    o.Kind() == kind && Selects(selector, o.labels)
  }

  /** The uids below n the arrangement names, each where it is named last. */
  function Named(arrangement: seq<nat>, n: nat): seq<nat> {
    if arrangement == [] then []
    else
      var rest := Named(arrangement[1..], n);
      if arrangement[0] < n && arrangement[0] !in rest then [arrangement[0]] + rest else rest
  }

  function Unnamed(named: seq<nat>, n: nat): seq<nat> {
    if n == 0 then []
    else Unnamed(named, n - 1) + (if n - 1 in named then [] else [n - 1])
  }

  /** The order lists come in at the moment. */
  function Order(w: World): seq<nat> {
    Named(w.arrangement, w.nextUid) + Unnamed(Named(w.arrangement, w.nextUid), w.nextUid)
  }

  /** A List call: the selected objects of a kind, in the given order. */
  function List(objects: map<nat, Object>, order: seq<nat>, kind: Kind, selector: Option<LabelSelector>): seq<Object> {
    if order == [] then []
    else
      (if order[0] in objects && Picked(objects[order[0]], kind, selector) then [objects[order[0]]] else [])
      + List(objects, order[1..], kind, selector)
  }

  function With(finalizers: seq<string>, f: string): seq<string> {
    if f in finalizers then finalizers else finalizers + [f]
  }

  function Without(finalizers: seq<string>, f: string): seq<string> {
    if finalizers == [] then []
    else (if finalizers[0] == f then [] else [finalizers[0]]) + Without(finalizers[1..], f)
  }

  /** The API server refuses new finalizers on an object that is being deleted. */
  predicate Refused(o: Object, finalizers: seq<string>) {
    o.deleting && exists f | f in finalizers :: f !in o.finalizers
  }

  /** It drops an object that is being deleted and has no finalizer left. */
  function Patched(objects: map<nat, Object>, uid: nat, finalizers: seq<string>): map<nat, Object>
    requires uid in objects
  {
    if objects[uid].deleting && finalizers == [] then objects - {uid}
    else objects[uid := objects[uid].(finalizers := finalizers)]
  }

  /** An edit may change a resource's spec, but not its id or what it selects. */
  predicate SameTarget(o: Object, spec: Spec) {
    var edited := o.(spec := spec);
    && edited.Key() == o.Key()
    && (spec.OrganizationSpec? && o.spec.OrganizationSpec? ==> spec.resourceSelector == o.spec.resourceSelector)
  }

  datatype Event =
    | Create(resource: Object)
    | Delete(kind: Kind, uid: nat)
    | Edit(uid: nat, spec: Spec)
    | SetOthers(uid: nat, finalizers: seq<string>)
    | CreateInstance
    | DeleteInstance
    | WriteDoc(doc: Doc)
    | RemoveDoc(key: DocKey)
    | Fill(payload: Payload)
    | SetSecrets(secrets: Secrets)
    | Reorder(arrangement: seq<nat>)

  /** One act of somebody else. An act the API server or the run's assumptions rule out has no effect: ids
      stay distinct within a kind, and nobody else touches this instance's finalizer. */
  function Applied(p: Params, w: World, e: Event): World {
    match e
    case Create(o) =>
      if p.finalizer in o.finalizers || exists u | u in w.objects :: w.objects[u].Key() == o.Key() then w
      else w.(objects := w.objects[w.nextUid := o.(uid := w.nextUid, deleting := false)], nextUid := w.nextUid + 1)
    case Delete(kind, uid) =>
      if uid !in w.objects || w.objects[uid].Kind() != kind then w
      else if w.objects[uid].finalizers == [] then w.(objects := w.objects - {uid})
      else w.(objects := w.objects[uid := w.objects[uid].(deleting := true)])
    case Edit(uid, spec) =>
      if uid !in w.objects || !SameTarget(w.objects[uid], spec) then w
      else w.(objects := w.objects[uid := w.objects[uid].(spec := spec)])
    case SetOthers(uid, finalizers) =>
      if || uid !in w.objects
         || Refused(w.objects[uid], finalizers)
         || (p.finalizer in finalizers) != (p.finalizer in w.objects[uid].finalizers) then w
      else w.(objects := Patched(w.objects, uid, finalizers))
    case CreateInstance =>
      if w.instance.Some? then w else w.(instance := Some(Instance([], false)))
    case DeleteInstance =>
      if w.instance.None? then w
      else if w.instance.value.finalizers == [] then w.(instance := None)
      else w.(instance := Some(w.instance.value.(deleting := true)))
    case WriteDoc(doc) =>
      w.(docs := w.docs[doc.Key() := doc], foreign := w.foreign + {doc.Key()}, stamps := w.stamps - {doc.Key()})
    case RemoveDoc(key) => w.(docs := w.docs - {key})
    case Fill(payload) => w.(payloads := w.payloads + [payload.(stamp := w.clock)])
    case SetSecrets(secrets) => w.(secrets := secrets)
    case Reorder(arrangement) => w.(arrangement := arrangement)
  }

  function AppliedAll(p: Params, w: World, events: seq<Event>): World
    decreases |events|
  {
    if events == [] then w else AppliedAll(p, Applied(p, w, events[0]), events[1..])
  }

  ghost predicate Distinct<T>(s: seq<T>) {
    forall i, j | 0 <= i < j < |s| :: s[i] != s[j]
  }

  lemma {:induction false} NamedOnce(arrangement: seq<nat>, n: nat)
    ensures Distinct(Named(arrangement, n))
    ensures forall u :: u in Named(arrangement, n) <==> u in arrangement && u < n
  {
    if arrangement != [] {
      NamedOnce(arrangement[1..], n);
    }
  }

  lemma {:induction false} UnnamedOnce(named: seq<nat>, n: nat)
    ensures Distinct(Unnamed(named, n))
    ensures forall u: nat :: u in Unnamed(named, n) <==> u < n && u !in named
  {
    if n > 0 {
      var front := Unnamed(named, n - 1);
      UnnamedOnce(named, n - 1);
      assert forall i | 0 <= i < |front| :: front[i] in front;
    }
  }

  lemma Apposed(a: seq<nat>, b: seq<nat>)
    requires Distinct(a) && Distinct(b) && forall u | u in b :: u !in a
    ensures Distinct(a + b)
  {
    assert forall i | 0 <= i < |a| :: a[i] in a;
    assert forall j | 0 <= j < |b| :: b[j] in b;
  }

  /** Whatever the arrangement, the order names every uid once; and every order is the order of some arrangement. */
  lemma OrderIsPermutation(w: World)
    ensures Distinct(Order(w)) && forall u: nat :: u in Order(w) <==> u < w.nextUid
    ensures Distinct(w.arrangement) && (forall u: nat :: u in w.arrangement <==> u < w.nextUid) ==> Order(w) == w.arrangement
  {
    NamedOnce(w.arrangement, w.nextUid);
    UnnamedOnce(Named(w.arrangement, w.nextUid), w.nextUid);
    Apposed(Named(w.arrangement, w.nextUid), Unnamed(Named(w.arrangement, w.nextUid), w.nextUid));
    if Distinct(w.arrangement) && forall u: nat :: u in w.arrangement <==> u < w.nextUid {
      NamedIsAll(w.arrangement, w.nextUid);
      UnnamedIsNone(w.arrangement, w.nextUid, w.nextUid);
    }
  }

  lemma {:induction false} NamedIsAll(arrangement: seq<nat>, n: nat)
    requires Distinct(arrangement) && forall u | u in arrangement :: u < n
    ensures Named(arrangement, n) == arrangement
  {
    if arrangement != [] {
      assert arrangement[0] !in arrangement[1..] && arrangement[0] in arrangement;
      assert forall u | u in arrangement[1..] :: u in arrangement;
      NamedIsAll(arrangement[1..], n);
    }
  }

  lemma {:induction false} UnnamedIsNone(named: seq<nat>, n: nat, all: nat)
    requires n <= all && forall u: nat | u < all :: u in named
    ensures Unnamed(named, n) == []
  {
    if n > 0 {
      UnnamedIsNone(named, n - 1, all);
    }
  }

  lemma {:induction false} ListedMembers(objects: map<nat, Object>, order: seq<nat>, kind: Kind, selector: Option<LabelSelector>)
    ensures forall o :: o in List(objects, order, kind, selector) <==>
                        exists u | u in order && u in objects :: objects[u] == o && Picked(o, kind, selector)
  {
    if order != [] {
      ListedMembers(objects, order[1..], kind, selector);
      assert forall u :: u in order <==> u == order[0] || u in order[1..];
      forall o
        ensures o in List(objects, order, kind, selector) <==>
                exists u | u in order && u in objects :: objects[u] == o && Picked(o, kind, selector)
      {
        if u :| u in order[1..] && u in objects && objects[u] == o && Picked(o, kind, selector) {
          assert u in order;
        }
      }
    }
  }

  /** Each object at most once. */
  ghost predicate Apart(l: seq<Object>) {
    forall i, j | 0 <= i < j < |l| :: l[i].uid != l[j].uid
  }

  lemma {:induction false} ListedApart(objects: map<nat, Object>, order: seq<nat>, kind: Kind, selector: Option<LabelSelector>)
    requires Distinct(order) && forall u | u in objects :: objects[u].uid == u
    ensures Apart(List(objects, order, kind, selector))
  {
    if order != [] {
      var rest := List(objects, order[1..], kind, selector);
      ListedApart(objects, order[1..], kind, selector);
      ListedMembers(objects, order[1..], kind, selector);
      forall i | 0 <= i < |rest|
        ensures rest[i].uid in order[1..]
      {
        assert rest[i] in rest;
      }
      assert order[0] !in order[1..];
    }
  }

  lemma ListMembers(w: World, kind: Kind, selector: Option<LabelSelector>)
    ensures forall o :: o in List(w.objects, Order(w), kind, selector) <==>
                        exists u: nat | u < w.nextUid && u in w.objects :: w.objects[u] == o && Picked(o, kind, selector)
  {
    OrderIsPermutation(w);
    ListedMembers(w.objects, Order(w), kind, selector);
  }

  lemma ListDistinct(w: World, kind: Kind, selector: Option<LabelSelector>)
    requires forall u | u in w.objects :: w.objects[u].uid == u
    ensures forall o | o in List(w.objects, Order(w), kind, selector) ::
              o.uid < w.nextUid && o.uid in w.objects && w.objects[o.uid] == o && Picked(o, kind, selector)
    ensures Apart(List(w.objects, Order(w), kind, selector))
  {
    ListMembers(w, kind, selector);
    OrderIsPermutation(w);
    ListedApart(w.objects, Order(w), kind, selector);
  }

  lemma {:induction false} WithoutMembers(finalizers: seq<string>, f: string)
    ensures forall g :: g in Without(finalizers, f) <==> g in finalizers && g != f
    ensures f !in finalizers ==> Without(finalizers, f) == finalizers
  {
    if finalizers != [] {
      WithoutMembers(finalizers[1..], f);
    }
  }

  /** A listing follows the order. */
  lemma {:induction false} ListsInOrder(objects: map<nat, Object>, a: seq<nat>, b: seq<nat>, kind: Kind, selector: Option<LabelSelector>)
    ensures List(objects, a + b, kind, selector) == List(objects, a, kind, selector) + List(objects, b, kind, selector)
  {
    if a == [] {
      assert a + b == b;
    } else {
      assert (a + b)[1..] == a[1..] + b;
      ListsInOrder(objects, a[1..], b, kind, selector);
      var one := if a[0] in objects && Picked(objects[a[0]], kind, selector) then [objects[a[0]]] else [];
      var front, back := List(objects, a[1..], kind, selector), List(objects, b, kind, selector);
      assert one + (front + back) == (one + front) + back;
    }
  }

  /** A listing depends on the selector only through the labels it selects. */
  lemma {:induction false} ListBySelection(objects: map<nat, Object>, order: seq<nat>, kind: Kind, a: Option<LabelSelector>, b: Option<LabelSelector>)
    requires forall labels :: Selects(a, labels) <==> Selects(b, labels)
    ensures List(objects, order, kind, a) == List(objects, order, kind, b)
  {
    if order != [] {
      ListBySelection(objects, order[1..], kind, a, b);
    }
  }

  /** So an expression that asks for one value lists, in the same order, what the pair lists. */
  lemma ListInIsListPair(w: World, kind: Kind, key: string, value: string)
    ensures List(w.objects, Order(w), kind, Expressing(Requirement(key, In, [value]))) == List(w.objects, Order(w), kind, Pairing(key, value))
  {
    forall labels {
      InSelectsExactly(labels, key, value, [], []);
    }
    ListBySelection(w.objects, Order(w), kind, Expressing(Requirement(key, In, [value])), Pairing(key, value));
  }

  /** A listing holds exactly the objects of the kind each pair and each expression of the selector selects. */
  lemma ListsExactly(w: World, kind: Kind, pairs: Labels, expressions: seq<Requirement>, o: Object)
    ensures o in List(w.objects, Order(w), kind, Some(LabelSelector(pairs, expressions))) <==>
            exists u: nat | u < w.nextUid && u in w.objects ::
              && w.objects[u] == o && o.Kind() == kind
              && (forall k | k in pairs :: (k, pairs[k]) in o.labels.Items)
              && (forall r | r in expressions :: Selects(Expressing(r), o.labels))
  {
    ListMembers(w, kind, Some(LabelSelector(pairs, expressions)));
    SelectorsIntersect(o.labels, pairs, expressions);
    forall k | k in pairs {
      PairsSelectExactly(o.labels, k, pairs[k]);
    }
  }

  /** A finalizer put on goes at the end, unless it is there; the others stay where they are. */
  lemma WithKeepsPrefix(finalizers: seq<string>, f: string)
    ensures finalizers <= With(finalizers, f) && f in With(finalizers, f)
    ensures |With(finalizers, f)| == |finalizers| <==> f in finalizers
    ensures |With(finalizers, f)| <= |finalizers| + 1
  {
  }

  /** An admissible act of somebody else has its full effect and no other. */
  lemma CreateTakesEffect(p: Params, w: World, o: Object)
    requires WF(w) && p.finalizer !in o.finalizers && forall u | u in w.objects :: w.objects[u].Key() != o.Key()
    ensures var v := Applied(p, w, Create(o)).objects;
            && v.Keys == w.objects.Keys + {w.nextUid} && v - {w.nextUid} == w.objects
            && !v[w.nextUid].deleting && v[w.nextUid].(uid := o.uid, deleting := o.deleting) == o
  {
  }

  lemma DeleteTakesEffect(p: Params, w: World, uid: nat)
    requires uid in w.objects
    ensures var v := Applied(p, w, Delete(w.objects[uid].Kind(), uid)).objects;
            && v - {uid} == w.objects - {uid}
            && (uid in v <==> w.objects[uid].finalizers != [])
            && (uid in v ==> v[uid].deleting && v[uid].(deleting := w.objects[uid].deleting) == w.objects[uid])
  {
  }

  lemma EditTakesEffect(p: Params, w: World, uid: nat, spec: Spec)
    requires uid in w.objects && SameTarget(w.objects[uid], spec)
    ensures var v := Applied(p, w, Edit(uid, spec)).objects;
            && v.Keys == w.objects.Keys && v - {uid} == w.objects - {uid}
            && v[uid].spec == spec && v[uid].(spec := w.objects[uid].spec) == w.objects[uid]
  {
  }

  lemma SetOthersTakesEffect(p: Params, w: World, uid: nat, finalizers: seq<string>)
    requires uid in w.objects && !w.objects[uid].deleting && (p.finalizer in finalizers <==> p.finalizer in w.objects[uid].finalizers)
    ensures var v := Applied(p, w, SetOthers(uid, finalizers)).objects;
            && v.Keys == w.objects.Keys && v - {uid} == w.objects - {uid}
            && v[uid].finalizers == finalizers && v[uid].(finalizers := w.objects[uid].finalizers) == w.objects[uid]
  {
  }

  /** So have acts on the stores: they leave what they are not about, and the objects, as they are. */
  lemma DocActsTakeEffect(p: Params, w: World, doc: Doc, key: DocKey)
    ensures var v := Applied(p, w, WriteDoc(doc)); doc.Key() in v.docs && v.docs[doc.Key()] == doc && v.docs - {doc.Key()} == w.docs - {doc.Key()}
    ensures var v := Applied(p, w, RemoveDoc(key)); key !in v.docs && forall k | k != key :: Get(v.docs, k) == Get(w.docs, k)
  {
  }

  lemma PayloadActsTakeEffect(p: Params, w: World, payload: Payload)
    ensures var v := Applied(p, w, Fill(payload));
            |v.payloads| == |w.payloads| + 1 && w.payloads <= v.payloads && v.payloads[|w.payloads|].(stamp := payload.stamp) == payload
  {
  }

  lemma StoreActsLeaveObjects(p: Params, w: World, e: Event)
    requires e.WriteDoc? || e.RemoveDoc? || e.Fill? || e.SetSecrets? || e.Reorder?
    ensures var v := Applied(p, w, e);
            && v.objects == w.objects && v.instance == w.instance
            && (e.SetSecrets? ==> v.secrets == e.secrets)
            && (e.Reorder? && Distinct(e.arrangement) && (forall u: nat :: u in e.arrangement <==> u < w.nextUid) ==> Order(v) == e.arrangement)
  {
    if e.Reorder? {
      OrderIsPermutation(Applied(p, w, e));
    }
  }
}
