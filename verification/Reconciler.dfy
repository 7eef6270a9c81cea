/**
 The reconciler itself: two stores with mutable state and the methods of a pass over them, proved against
 the functions of module Pass. What is proved about those functions holds of these methods.
 */
module ReconcilerModel {
  import opened Wrappers
  import opened Documents
  import opened Selectors
  import opened Resources
  import opened FeatureMerge
  import opened Upserts
  import opened Worlds
  import opened DatabaseModel
  import FeatureTranslation
  import FinalizerNames
  import KeyGenerator
  import NoOrphans
  import NoStrands
  import PasswordHash
  import Pass
  import Suspension

  /** One uid of the order. */
  lemma ListStep(objects: map<nat, Object>, order: seq<nat>, n: nat, kind: Kind, selector: Option<LabelSelector>, items: seq<Object>)
    requires n < |order|
    ensures var taken := if order[n] in objects && Picked(objects[order[n]], kind, selector) then items + [objects[order[n]]] else items;
            taken + List(objects, order[n + 1..], kind, selector) == items + List(objects, order[n..], kind, selector)
  {
    assert order[n..][1..] == order[n + 1..];
  }

  /** The API server, one namespace of it. */
  class Cluster {
    var objects: map<nat, Object>
    var nextUid: nat
    var arrangement: seq<nat>
    var instance: Option<Instance>
    var secrets: Secrets

    constructor ()
      ensures objects == map[] && nextUid == 0 && arrangement == [] && instance == None && secrets == map[]
    {
      objects, nextUid, arrangement, instance, secrets := map[], 0, [], None, map[];
    }

    function ListOrder(): seq<nat>
      reads this
    {
      Named(arrangement, nextUid) + Unnamed(Named(arrangement, nextUid), nextUid)
    }

    method List(kind: Kind, selector: Option<LabelSelector>) returns (items: seq<Object>)
      ensures items == Worlds.List(objects, ListOrder(), kind, selector)
    {
      items := [];
      var order, all := ListOrder(), objects;
      for n := 0 to |order|
        invariant items + Worlds.List(all, order[n..], kind, selector) == Worlds.List(all, order, kind, selector)
      {
        ListStep(all, order, n, kind, selector, items);
        if order[n] in all && Picked(all[order[n]], kind, selector) {
          items := items + [all[order[n]]];
        }
      }
    }

    method PatchFinalizers(uid: nat, finalizers: seq<string>) returns (ok: bool)
      modifies this`objects
      ensures ok == (uid in old(objects) && !Refused(old(objects)[uid], finalizers))
      ensures objects == if ok then Patched(old(objects), uid, finalizers) else old(objects)
    {
      if uid !in objects {
        return false;
      }
      var o := objects[uid];
      if o.deleting && exists f | f in finalizers :: f !in o.finalizers {
        return false;
      }
      if o.deleting && finalizers == [] {
        objects := objects - {uid};
      } else {
        objects := objects[uid := o.(finalizers := finalizers)];
      }
      return true;
    }

    method PatchInstance(finalizers: seq<string>) returns (ok: bool)
      modifies this`instance
      ensures var i := old(instance);
              && ok == (i.Some? && !(i.value.deleting && exists f | f in finalizers :: f !in i.value.finalizers))
              && instance == (if !ok then i
                              else if i.value.deleting && finalizers == [] then None
                              else Some(i.value.(finalizers := finalizers)))
    {
      if instance.None? {
        return false;
      }
      var i := instance.value;
      if i.deleting && exists f | f in finalizers :: f !in i.finalizers {
        return false;
      }
      instance := if i.deleting && finalizers == [] then None else Some(i.(finalizers := finalizers));
      return true;
    }
  }

  /** What is still to come completes the members so far. */
  ghost predicate Gathering(members: seq<Member>, rest: Pass.Gathered, all: Pass.Gathered) {
    rest.out == all.out && (all.out.ok ==> members + rest.members == all.members)
  }

  lemma GatherStep(p: Params, s: Pass.State, bindings: seq<Binding>, n: nat, members: seq<Member>, all: Pass.Gathered)
    requires n < |bindings| && Gathering(members, Pass.Gather(p, s, bindings[n..]), all)
    ensures !Convertible(bindings[n].selector) ==> all.out == Pass.Outcome(s, false)
    ensures var b := Pass.Begin(p, s);
            Convertible(bindings[n].selector) ==>
              if !b.ok then all.out == b
              else
                var users := Worlds.List(b.s.w.objects, Order(b.s.w), UserKind, bindings[n].selector);
                Gathering(members + Pass.MembersOf(users, bindings[n].role), Pass.Gather(p, b.s, bindings[n + 1..]), all)
  {
    assert bindings[n..][0] == bindings[n] && bindings[n..][1..] == bindings[n + 1..];
  }

  class Reconciler {
    const p: Params
    const cluster: Cluster
    const db: Database
    var ticks: seq<Pass.Tick>
    var catalog: seq<Ref>
    var clock: nat
    ghost var foreign: set<DocKey>
    ghost var stamps: map<DocKey, nat>

    constructor (p: Params, cluster: Cluster, db: Database)
      requires db.Valid()
      ensures this.p == p && this.cluster == cluster && this.db == db && Valid()
      ensures ticks == [] && catalog == [] && clock == 0 && foreign == View(db.docs).Keys && stamps == map[]
    {
      this.p, this.cluster, this.db := p, cluster, db;
      ticks, catalog, clock := [], [], 0;
      foreign, stamps := View(db.docs).Keys, map[];
    }

    /** Never two documents with one id in a collection. */
    ghost predicate Valid()
      reads this, db
    {
      db.Valid()
    }

    ghost function W(): World
      reads this, cluster, db
    {
      World(cluster.objects, cluster.nextUid, cluster.arrangement, cluster.instance, View(db.docs), db.payloads, cluster.secrets, foreign, clock, stamps)
    }

    ghost function S(): Pass.State
      reads this, cluster, db
    {
      Pass.State(W(), ticks, catalog)
    }

    /** Somebody else acts. */
    method Act(e: Event)
      requires Valid()
      modifies this, cluster, db
      ensures Valid() && W() == Applied(p, old(W()), e)
      ensures ticks == old(ticks) && catalog == old(catalog)
    {
      match e
      case Create(o) =>
        if p.finalizer !in o.finalizers && !exists u | u in cluster.objects :: cluster.objects[u].Key() == o.Key() {
          cluster.objects := cluster.objects[cluster.nextUid := o.(uid := cluster.nextUid, deleting := false)];
          cluster.nextUid := cluster.nextUid + 1;
        }
      case Delete(kind, uid) =>
        if uid in cluster.objects && cluster.objects[uid].Kind() == kind {
          if cluster.objects[uid].finalizers == [] {
            cluster.objects := cluster.objects - {uid};
          } else {
            cluster.objects := cluster.objects[uid := cluster.objects[uid].(deleting := true)];
          }
        }
      case Edit(uid, spec) =>
        if uid in cluster.objects && SameTarget(cluster.objects[uid], spec) {
          cluster.objects := cluster.objects[uid := cluster.objects[uid].(spec := spec)];
        }
      case SetOthers(uid, finalizers) =>
        if uid in cluster.objects && (p.finalizer in finalizers) == (p.finalizer in cluster.objects[uid].finalizers) {
          var _ := cluster.PatchFinalizers(uid, finalizers);
        }
      case CreateInstance =>
        if cluster.instance.None? {
          cluster.instance := Some(Instance([], false));
        }
      case DeleteInstance =>
        if cluster.instance.Some? {
          cluster.instance := if cluster.instance.value.finalizers == [] then None
                              else Some(cluster.instance.value.(deleting := true));
        }
      case WriteDoc(doc) =>
        var found := db.FindOne(doc.Key());
        if found.Some? {
          db.UpdateOne(doc.Key(), doc);
        } else {
          db.InsertOne(doc);
        }
        foreign, stamps := foreign + {doc.Key()}, stamps - {doc.Key()};
      case RemoveDoc(key) =>
        db.DeleteOne(key);
      case Fill(payload) =>
        db.payloads := db.payloads + [payload.(stamp := clock)];
      case SetSecrets(secrets) =>
        cluster.secrets := secrets;
      case Reorder(arrangement) =>
        cluster.arrangement := arrangement;
    }

    /** The start of every call to a store: what happens before it, and whether it happens. */
    method Begin() returns (ok: bool, entropy: Pass.Entropy)
      requires Valid()
      modifies this, cluster, db
      ensures Valid() && Pass.Outcome(S(), ok) == Pass.Begin(p, old(S()))
      ensures ok ==> old(ticks) != [] && entropy == old(ticks)[0].entropy
    {
      entropy := Pass.Entropy(0, [], [], [], false);
      if ticks == [] {
        return false, entropy;
      }
      var t := ticks[0];
      ghost var start := W();
      for n := 0 to |t.events|
        invariant Valid() && ticks == old(ticks) && catalog == old(catalog)
        invariant AppliedAll(p, W(), t.events[n..]) == AppliedAll(p, start, t.events)
      {
        assert t.events[n..][1..] == t.events[n + 1..];
        Act(t.events[n]);
      }
      ticks := ticks[1..];
      return !t.fault, t.entropy;
    }

    method PatchObject(uid: nat, finalizers: seq<string>) returns (ok: bool)
      requires Valid()
      modifies this, cluster, db
      ensures Valid() && Pass.Outcome(S(), ok) == Pass.Patch(p, old(S()), uid, finalizers)
    {
      var e;
      ok, e := Begin();
      if ok {
        ok := cluster.PatchFinalizers(uid, finalizers);
      }
    }

    method AddFinalizer(o: Object) returns (ok: bool)
      requires Valid()
      modifies this, cluster, db
      ensures Valid() && Pass.Outcome(S(), ok) == Pass.AddFinalizer(p, old(S()), o)
    {
      if o.deleting {
        return true;
      }
      ok := PatchObject(o.uid, With(o.finalizers, p.finalizer));
    }

    method RemoveFinalizer(o: Object) returns (ok: bool)
      requires Valid()
      modifies this, cluster, db
      ensures Valid() && Pass.Outcome(S(), ok) == Pass.Release(p, old(S()), o)
    {
      ok := PatchObject(o.uid, Without(o.finalizers, p.finalizer));
    }

    method UpdateResourceCatalog(o: Object)
      modifies this`catalog
      ensures catalog == Pass.Catalogued(old(catalog), o)
    {
      var ref := Ref(o.Kind(), o.GetName());
      if ref !in catalog {
        catalog := catalog + [ref];
      }
    }

    method AppendMembers(members: seq<Member>, users: seq<Object>, role: string) returns (extended: seq<Member>)
      ensures extended == members + Pass.MembersOf(users, role)
    {
      extended := members;
      for n := 0 to |users|
        invariant extended + Pass.MembersOf(users[n..], role) == members + Pass.MembersOf(users, role)
      {
        assert users[n..][1..] == users[n + 1..];
        extended := extended + [Member(users[n].Id(), role)];
      }
    }

    /** One List call; its users follow the members so far. */
    method GatherOne(binding: Binding, members: seq<Member>) returns (ok: bool, extended: seq<Member>)
      requires Valid()
      modifies this, cluster, db
      ensures Valid() && Pass.Outcome(S(), ok) == Pass.Begin(p, old(S()))
      ensures ok ==> extended == members + Pass.MembersOf(Worlds.List(W().objects, Order(W()), UserKind, binding.selector), binding.role)
    {
      extended := members;
      var e;
      ok, e := Begin();
      if ok {
        var users := cluster.List(UserKind, binding.selector);
        extended := AppendMembers(members, users, binding.role);
      }
    }

    /** One List call per binding; members in binding order and then list order. */
    method Gather(bindings: seq<Binding>) returns (ok: bool, members: seq<Member>)
      requires Valid()
      modifies this, cluster, db
      ensures Valid()
      ensures var g := Pass.Gather(p, old(S()), bindings);
              Pass.Outcome(S(), ok) == g.out && (ok ==> members == g.members)
    {
      members := [];
      ghost var g := Pass.Gather(p, S(), bindings);
      for n := 0 to |bindings|
        invariant Valid()
        invariant Gathering(members, Pass.Gather(p, S(), bindings[n..]), g)
      {
        GatherStep(p, S(), bindings, n, members, g);
        if !Convertible(bindings[n].selector) {
          return false, members;
        }
        ok, members := GatherOne(bindings[n], members);
        if !ok {
          return;
        }
      }
      ok := true;
    }

    /** Bookkeeping after an upsert. */
    ghost method Record(key: DocKey, wrote: bool)
      modifies this`foreign, this`stamps
      ensures foreign == old(foreign) - {key}
      ensures stamps == if wrote then old(stamps)[key := clock] else old(stamps)
    {
      foreign := foreign - {key};
      if wrote {
        stamps := stamps[key := clock];
      }
    }

    /** Credentials first; a stored password hash decides the salt. */
    method UpsertUser(o: Object, organization: string, members: seq<Member>, e: Pass.Entropy) returns (ok: bool, wrote: bool)
      requires Valid() && o.spec.UserSpec?
      modifies db`docs
      ensures Valid()
      ensures var r := Pass.Computed(p, cluster.secrets, organization, members, o, Get(old(View(db.docs)), o.Key()), e);
              && ok == r.Some?
              && View(db.docs) == (if ok then old(View(db.docs))[o.Key() := r.value.doc] else old(View(db.docs)))
              && (ok ==> wrote == r.value.wrote)
    {
      var c := Pass.Credentials(cluster.secrets, o.spec.secret);
      if c.None? {
        return false, false;
      }
      var user := User(o.Id(), o.spec.email, o.GetName(), "", 0);
      if c.value.0 != "" {
        user := user.(name := c.value.0);
      }
      var found := db.FindOne(o.Key());
      ViewKeys(db.docs);
      var stored := AsUser(found);
      var hash := PasswordHash.SetPassword(if stored.Some? then Some(stored.value.passwordHash) else None, c.value.1, e.salt, p.scrypt);
      user := user.(passwordHash := hash);
      wrote := db.UpdateUser(user);
      ok := true;
    }

    method UpsertFeature(o: Object, organization: string, members: seq<Member>, e: Pass.Entropy) returns (ok: bool, wrote: bool)
      requires Valid() && o.spec.FeatureSpec?
      modifies db`docs
      ensures Valid()
      ensures var r := Pass.Computed(p, cluster.secrets, organization, members, o, Get(old(View(db.docs)), o.Key()), e);
              && ok == r.Some?
              && View(db.docs) == (if ok then old(View(db.docs))[o.Key() := r.value.doc] else old(View(db.docs)))
              && (ok ==> wrote == r.value.wrote)
    {
      var f := FeatureTranslation.FromV1beta1(o, Pass.OWNER, organization, p.parse);
      if f.None? {
        return false, false;
      }
      wrote := db.UpdateFeature(f.value, e.now, e.reordered);
      ok := true;
    }

    method UpsertConnection(o: Object, organization: string, members: seq<Member>, e: Pass.Entropy) returns (ok: bool, wrote: bool)
      requires Valid() && o.spec.ClientSpec?
      modifies db`docs
      ensures Valid()
      ensures var r := Pass.Computed(p, cluster.secrets, organization, members, o, Get(old(View(db.docs)), o.Key()), e);
              && ok == r.Some?
              && View(db.docs) == (if ok then old(View(db.docs))[o.Key() := r.value.doc] else old(View(db.docs)))
              && (ok ==> wrote == r.value.wrote)
    {
      var c := Pass.ConnectionOf(cluster.secrets, o, organization);
      if c.None? {
        return false, false;
      }
      wrote := db.WriteSDKConnection(c.value, e.now, KeyGenerator.GenerateKey("", e.key1), KeyGenerator.GenerateKey("", e.key2));
      ok := true;
    }

    /** The document of one object: what it asks for, find, merge and write. */
    method UpsertDoc(organization: string, members: seq<Member>, o: Object, e: Pass.Entropy) returns (ok: bool, wrote: bool)
      requires Valid()
      modifies db`docs
      ensures Valid()
      ensures var r := Pass.Computed(p, cluster.secrets, organization, members, o, Get(old(View(db.docs)), o.Key()), e);
              && ok == r.Some?
              && View(db.docs) == (if ok then old(View(db.docs))[o.Key() := r.value.doc] else old(View(db.docs)))
              && (ok ==> wrote == r.value.wrote)
    {
      match o.Kind() {
        case UserKind => ok, wrote := UpsertUser(o, organization, members, e);
        case OrganizationKind =>
          wrote := db.UpdateOrganization(Organization(o.Id(), o.spec.ownerEmail, o.GetName(), 0, Sliced(members), 0), e.now);
          ok := true;
        case FeatureKind => ok, wrote := UpsertFeature(o, organization, members, e);
        case ClientKind => ok, wrote := UpsertConnection(o, organization, members, e);
      }
    }

    /** The upsert of one object, counted if it wrote. */
    method Upsert(organization: string, members: seq<Member>, o: Object, e: Pass.Entropy) returns (ok: bool, wrote: bool)
      requires Valid()
      modifies this, db`docs
      ensures Valid() && ticks == old(ticks) && catalog == old(catalog)
      ensures var r := Pass.Computed(p, cluster.secrets, organization, members, o, Get(old(View(db.docs)), o.Key()), e);
              && ok == r.Some?
              && W() == (if ok then Pass.Stored(old(W()), o.Key(), r.value) else old(W()))
              && (ok ==> wrote == r.value.wrote)
    {
      ok, wrote := UpsertDoc(organization, members, o, e);
      if ok {
        if wrote {
          clock := clock + 1;
        }
        Record(o.Key(), wrote);
      }
    }

    method ClearPayloadCache(environment: string, organization: string) returns (ok: bool)
      requires Valid()
      modifies this, cluster, db
      ensures Valid() && Pass.Outcome(S(), ok) == Pass.ClearCache(p, old(S()), environment, organization)
    {
      var e;
      ok, e := Begin();
      if ok {
        db.DeleteMany(environment, organization);
      }
    }

    method Put(organization: string, members: seq<Member>, o: Object) returns (ok: bool)
      requires Valid()
      modifies this, cluster, db
      ensures Valid() && Pass.Outcome(S(), ok) == Pass.Put(p, old(S()), organization, members, o)
    {
      var e;
      ok, e := Begin();
      if !ok {
        return;
      }
      var wrote;
      ok, wrote := Upsert(organization, members, o, e);
      if ok && o.spec.ClientSpec? && wrote {
        ok := ClearPayloadCache(o.spec.environment, organization);
      }
    }

    method Delete(key: DocKey) returns (ok: bool)
      requires Valid()
      modifies this, cluster, db
      ensures Valid() && Pass.Outcome(S(), ok) == Pass.Purge(p, old(S()), key)
    {
      var e;
      ok, e := Begin();
      if ok {
        db.DeleteOne(key);
      }
    }

    /** The body of the second loop for one object. */
    method SettleOne(i: Instance, organization: string, o: Object) returns (ok: bool)
      requires Valid()
      modifies this, cluster, db
      ensures Valid() && Pass.Outcome(S(), ok) == Pass.SettleOne(p, old(S()), i, organization, o)
    {
      var members: seq<Member> := [];
      if o.spec.OrganizationSpec? {
        ok, members := Gather(o.spec.bindings);
        if !ok {
          return;
        }
      }
      if o.spec.FeatureSpec? && !FeatureTranslation.Translates(o.spec.environments) {
        return false;
      }
      if !o.deleting && !i.deleting {
        ok := Put(organization, members, o);
      } else {
        if p.prune {
          ok := Delete(o.Key());
          if !ok {
            return;
          }
        }
        ok := RemoveFinalizer(o);
      }
    }

    /** The first loop over a listing. */
    method MarkAll(items: seq<Object>) returns (ok: bool)
      requires Valid()
      modifies this, cluster, db
      ensures Valid() && Pass.Outcome(S(), ok) == Pass.MarkAll(p, old(S()), items)
    {
      for n := 0 to |items|
        invariant Valid()
        invariant Pass.MarkAll(p, S(), items[n..]) == Pass.MarkAll(p, old(S()), items)
      {
        assert items[n..][0] == items[n] && items[n..][1..] == items[n + 1..];
        ok := AddFinalizer(items[n]);
        if !ok {
          return;
        }
        if !items[n].deleting {
          UpdateResourceCatalog(items[n]);
        }
      }
      ok := true;
    }

    /** The second loop over the same listing. */
    method SettleAll(i: Instance, organization: string, items: seq<Object>) returns (ok: bool)
      requires Valid()
      modifies this, cluster, db
      ensures Valid() && Pass.Outcome(S(), ok) == Pass.SettleAll(p, old(S()), i, organization, items)
    {
      for n := 0 to |items|
        invariant Valid()
        invariant Pass.SettleAll(p, S(), i, organization, items[n..]) == Pass.SettleAll(p, old(S()), i, organization, items)
      {
        assert items[n..][0] == items[n] && items[n..][1..] == items[n + 1..];
        ok := SettleOne(i, organization, items[n]);
        if !ok {
          return;
        }
      }
      ok := true;
    }

    /** reconcileUsers, reconcileOrganizations, reconcileFeatures and reconcileClients: list, mark, settle. */
    method ReconcileKind(i: Instance, kind: Kind, selector: Option<LabelSelector>, organization: string) returns (ok: bool, items: seq<Object>)
      requires Valid()
      modifies this, cluster, db
      ensures Valid() && Pass.Outcome(S(), ok) == Pass.ReconcileKind(p, old(S()), i, kind, selector, organization)
      ensures ok ==> items == Pass.Snapshot(p, old(S()), kind, selector)
    {
      items := [];
      if !Convertible(selector) || !Convertible(p.selector) {
        return false, items;
      }
      var e;
      ok, e := Begin();
      if !ok {
        return;
      }
      items := cluster.List(kind, selector);
      if !i.deleting {
        ok := MarkAll(items);
        if !ok {
          return;
        }
      }
      ok := SettleAll(i, organization, items);
    }

    /** The body of reconcile, between connecting and disconnecting. */
    method ReconcileAll(i: Instance) returns (ok: bool)
      requires Valid()
      modifies this, cluster, db
      ensures Valid() && Pass.Outcome(S(), ok) == Pass.ReconcileAll(p, old(S()), i)
    {
      catalog := [];
      var users;
      ok, users := ReconcileKind(i, UserKind, p.selector, "");
      if !ok {
        return;
      }
      ghost var before := S();
      var orgs;
      ok, orgs := ReconcileKind(i, OrganizationKind, p.selector, "");
      if !ok {
        return;
      }
      Pass.SnapshotKinds(p, before, p.selector);
      ghost var start := S();
      for n := 0 to |orgs|
        invariant Valid()
        invariant Pass.ReconcileOwned(p, S(), i, orgs[n..]) == Pass.ReconcileOwned(p, start, i, orgs)
      {
        assert orgs[n..][0] == orgs[n] && orgs[n..][1..] == orgs[n + 1..];
        var items;
        ok, items := ReconcileKind(i, FeatureKind, orgs[n].spec.resourceSelector, orgs[n].Id());
        if !ok {
          return;
        }
        ok, items := ReconcileKind(i, ClientKind, orgs[n].spec.resourceSelector, orgs[n].Id());
        if !ok {
          return;
        }
      }
      ok := true;
    }

    method PatchInstance(finalizers: seq<string>) returns (ok: bool)
      requires Valid()
      modifies this, cluster, db
      ensures Valid() && Pass.Outcome(S(), ok) == Pass.PatchInstance(p, old(S()), finalizers)
    {
      var e;
      ok, e := Begin();
      if ok {
        ok := cluster.PatchInstance(finalizers);
      }
    }

    /** One call of Reconcile. */
    method Reconcile() returns (ok: bool)
      requires Valid()
      modifies this, cluster, db
      ensures Valid() && Pass.Outcome(S(), ok) == Pass.Reconcile(p, old(S()))
    {
      var e;
      ok, e := Begin();
      if !ok || cluster.instance.None? || p.suspend {
        return;
      }
      var i := cluster.instance.value;
      if !i.deleting {
        ok := PatchInstance(With(i.finalizers, FinalizerNames.FINALIZER));
        if !ok {
          return;
        }
      }
      ok := ReconcileAll(i);
      if ok && i.deleting {
        ok := PatchInstance(Without(i.finalizers, FinalizerNames.FINALIZER));
      }
    }

    /** One round of a run: an attempt on a schedule of its own. The safety theorems hold of it. */
    method Attempt(schedule: seq<Pass.Tick>) returns (ok: bool)
      requires Valid()
      modifies this, cluster, db
      ensures Valid() && W() == Pass.After(p, old(W()), Pass.Round.Attempt(schedule))
      ensures p.prune && WF(old(W())) && NoOrphans.Orphanless(p, old(W())) ==> WF(W()) && NoOrphans.Orphanless(p, W())
      ensures NoStrands.Tidy(p, old(W())) && NoStrands.SteadyTicks(schedule) ==> NoStrands.Tidy(p, W())
      ensures p.suspend ==> W() == AppliedAll(p, old(W()), Suspension.SeenBy(Pass.Round.Attempt(schedule))) && catalog == []
    {
      ticks, catalog := schedule, [];
      ghost var start := S();
      ok := Reconcile();
      if p.prune && WF(start.w) && NoOrphans.Orphanless(p, start.w) {
        NoOrphans.ReconcileIsSafe(p, start);
      }
      if NoStrands.Tidy(p, start.w) && NoStrands.SteadyTicks(schedule) {
        NoStrands.ReconcileIsTidy(p, start);
      }
      if p.suspend {
        Suspension.SuspendedPass(p, start);
      }
    }
  }
}
