/**
 The reconcile pass, as a function of a schedule. Every call to either store takes the next tick of the
 schedule: first the tick's events happen, then the call itself, unless the tick is a fault. A pass that
 runs out of ticks has crashed. A fault after a call took effect is the same as one before the next call,
 so the states a pass can be caught in are exactly its results on all schedules.
 */
module Pass {
  import opened Wrappers
  import opened Documents
  import opened Selectors
  import opened Resources
  import opened FeatureMerge
  import opened FeatureTranslation
  import opened Upserts
  import opened Worlds
  import DatabaseModel
  import KeyGenerator
  import PasswordHash
  import FinalizerNames

  const OWNER := "growthbook-controller"

  /** What a call draws from clock, random source and map iteration order. */
  datatype Entropy = Entropy(now: Time, salt: seq<KeyGenerator.Byte>, key1: seq<KeyGenerator.Byte>, key2: seq<KeyGenerator.Byte>, reordered: bool)

  datatype Tick = Tick(events: seq<Event>, fault: bool, entropy: Entropy)

  datatype State = State(w: World, ticks: seq<Tick>, catalog: seq<Ref>)

  datatype Outcome = Outcome(s: State, ok: bool)

  function Begin(p: Params, s: State): Outcome {
    if s.ticks == [] then Outcome(s, false)
    else Outcome(State(AppliedAll(p, s.w, s.ticks[0].events), s.ticks[1..], s.catalog), !s.ticks[0].fault)
  }

  /** A merge patch of the finalizers of the listed object. */
  function Patch(p: Params, s: State, uid: nat, finalizers: seq<string>): Outcome {
    var b := Begin(p, s);
    if !b.ok then b
    else if uid !in b.s.w.objects || Refused(b.s.w.objects[uid], finalizers) then Outcome(b.s, false)
    else Outcome(b.s.(w := b.s.w.(objects := Patched(b.s.w.objects, uid, finalizers))), true)
  }

  function AddFinalizer(p: Params, s: State, o: Object): Outcome {
    if o.deleting then Outcome(s, true) else Patch(p, s, o.uid, With(o.finalizers, p.finalizer))
  }

  function Catalogued(catalog: seq<Ref>, o: Object): seq<Ref> {
    var ref := RefOf(o);
    if ref in catalog then catalog else catalog + [ref]
  }

  /** The first loop over a listing: finalizers on, catalog entries for what is not being deleted. */
  function MarkAll(p: Params, s: State, items: seq<Object>): Outcome
    decreases |items|
  {
    if items == [] then Outcome(s, true)
    else
      var a := AddFinalizer(p, s, items[0]);
      if !a.ok then a
      else MarkAll(p, if items[0].deleting then a.s else a.s.(catalog := Catalogued(a.s.catalog, items[0])), items[1..])
  }

  function Field(secrets: Secrets, name: string, field: string): Option<string> {
    if name in secrets && field in secrets[name] then Some(secrets[name][field]) else None
  }

  /** Username, empty if the secret has none, and password. */
  function Credentials(secrets: Secrets, ref: Option<SecretReference>): Option<(string, string)> {
    if ref.None? then None
    else
      var user := Field(secrets, ref.value.name, ref.value.userField);
      var password := Field(secrets, ref.value.name, ref.value.passwordField);
      if password.None? then None else Some((if user.Some? then user.value else "", password.value))
  }

  /** The token with its prefix; a token shorter than the prefix panics. */
  function ClientKey(secrets: Secrets, ref: Option<TokenReference>): Option<string> {
    if ref.None? then None
    else
      var token := Field(secrets, ref.value.name, if ref.value.tokenField == "" then "token" else ref.value.tokenField);
      if token.None? || |token.value| < 4 then None
      else if token.value[..4] == "sdk-" then token
      else Some("sdk-" + token.value)
  }

  function UserOf(p: Params, secrets: Secrets, o: Object, stored: Option<User>, salt: seq<KeyGenerator.Byte>): Option<User>
    requires o.spec.UserSpec?
  {
    var c := Credentials(secrets, o.spec.secret);
    if c.None? then None
    else
      var name := if c.value.0 != "" then c.value.0 else o.GetName();
      var hash := PasswordHash.HashFor(if stored.Some? then Some(stored.value.passwordHash) else None, c.value.1, salt, p.scrypt);
      Some(User(o.Id(), o.spec.email, name, hash, 0))
  }

  function OrganizationOf(o: Object, members: seq<Member>): Organization
    requires o.spec.OrganizationSpec?
  {
    Organization(o.Id(), o.spec.ownerEmail, o.GetName(), 0, Sliced(members), 0)
  }

  function ConnectionOf(secrets: Secrets, o: Object, organization: string): Option<SDKConnection>
    requires o.spec.ClientSpec?
  {
    var key := ClientKey(secrets, o.spec.tokenSecret);
    if key.None? then None
    else Some(SDKConnection(o.Id(), key.value, Items(o.spec.languages), o.GetName(), o.spec.environment, o.spec.encryptPayload, "",
                            organization, o.spec.project, o.spec.includeVisualExperiments, o.spec.includeDraftExperiments,
                            o.spec.includeExperimentNames, 0, 0, "", 0))
  }

  /** The document an upsert of the object leaves, or None where preparing it fails. */
  function Computed(p: Params, secrets: Secrets, organization: string, members: seq<Member>, o: Object, existing: Option<Doc>, e: Entropy)
    : Option<Upserted<Doc>>
  {
    match o.spec
    case UserSpec(_, _, _, _) =>
      var user := UserOf(p, secrets, o, AsUser(existing), e.salt);
      if user.None? then None
      else var r := UpsertUser(AsUser(existing), user.value); Some(Upserted(UserDoc(r.doc), r.wrote))
    case OrganizationSpec(_, _, _, _, _) =>
      var r := UpsertOrganization(AsOrganization(existing), OrganizationOf(o, members), e.now);
      Some(Upserted(OrganizationDoc(r.doc), r.wrote))
    case FeatureSpec(_, _, _, _, _, _) =>
      var f := Translated(o, OWNER, organization, p.parse);
      if f.None? then None
      else var r := UpsertFeature(AsFeature(existing), f.value, e.now, e.reordered); Some(Upserted(FeatureDoc(r.doc), r.wrote))
    case ClientSpec(_, _, _, _, _, _, _, _, _, _) =>
      var c := ConnectionOf(secrets, o, organization);
      if c.None? then None
      else
        var r := UpsertConnection(AsConnection(existing), c.value, e.now,
                                  KeyGenerator.GenerateKey("", e.key1), KeyGenerator.GenerateKey("", e.key2));
        Some(Upserted(ConnectionDoc(r.doc), r.wrote))
  }

  /** The world after an upsert; if nothing was written the document is the one that was there. */
  function Stored(w: World, key: DocKey, r: Upserted<Doc>): World {
    var now := if r.wrote then w.clock + 1 else w.clock;
    w.(docs := w.docs[key := r.doc], foreign := w.foreign - {key}, clock := now,
       stamps := if r.wrote then w.stamps[key := now] else w.stamps)
  }

  /** The write of an upsert, followed for a connection that changed by the clear of its payload cache. */
  function Put(p: Params, s: State, organization: string, members: seq<Member>, o: Object): Outcome {
    var b := Begin(p, s);
    if !b.ok then b
    else
      var r := Computed(p, b.s.w.secrets, organization, members, o, Get(b.s.w.docs, o.Key()), s.ticks[0].entropy);
      if r.None? then Outcome(b.s, false)
      else
        var s' := b.s.(w := Stored(b.s.w, o.Key(), r.value));
        if o.spec.ClientSpec? && r.value.wrote then ClearCache(p, s', o.spec.environment, organization) else Outcome(s', true)
  }

  function ClearCache(p: Params, s: State, environment: string, organization: string): Outcome {
    var b := Begin(p, s);
    if !b.ok then b
    else Outcome(b.s.(w := b.s.w.(payloads := DatabaseModel.Cleared(b.s.w.payloads, environment, organization))), true)
  }

  function Purge(p: Params, s: State, key: DocKey): Outcome {
    var b := Begin(p, s);
    if !b.ok then b
    else Outcome(b.s.(w := b.s.w.(docs := b.s.w.docs - {key})), true)
  }

  function Release(p: Params, s: State, o: Object): Outcome {
    Patch(p, s, o.uid, Without(o.finalizers, p.finalizer))
  }

  function Retire(p: Params, s: State, o: Object): Outcome {
    if !p.prune then Release(p, s, o)
    else
      var d := Purge(p, s, o.Key());
      if !d.ok then d else Release(p, d.s, o)
  }

  datatype Gathered = Gathered(out: Outcome, members: seq<Member>)

  function MembersOf(users: seq<Object>, role: string): seq<Member> {
    if users == [] then [] else [Member(users[0].Id(), role)] + MembersOf(users[1..], role)
  }

  /** One List call per binding, in order. */
  function Gather(p: Params, s: State, bindings: seq<Binding>): Gathered
    decreases |bindings|
  {
    if bindings == [] then Gathered(Outcome(s, true), [])
    else if !Convertible(bindings[0].selector) then Gathered(Outcome(s, false), [])
    else
      var b := Begin(p, s);
      if !b.ok then Gathered(b, [])
      else
        var users := List(b.s.w.objects, Order(b.s.w), UserKind, bindings[0].selector);
        var rest := Gather(p, b.s, bindings[1..]);
        Gathered(rest.out, MembersOf(users, bindings[0].role) + rest.members)
  }

  predicate Retiring(i: Instance, o: Object) {
    i.deleting || o.deleting
  }

  function Settle(p: Params, s: State, i: Instance, organization: string, members: seq<Member>, o: Object): Outcome {
    if o.spec.FeatureSpec? && !Translates(o.spec.environments) then Outcome(s, false)
    else if Retiring(i, o) then Retire(p, s, o)
    else Put(p, s, organization, members, o)
  }

  /** The body of the second loop; an organization's members are collected first, whatever comes after. */
  function SettleOne(p: Params, s: State, i: Instance, organization: string, o: Object): Outcome {
    if o.spec.OrganizationSpec? then
      var g := Gather(p, s, o.spec.bindings);
      if !g.out.ok then g.out else Settle(p, g.out.s, i, organization, g.members, o)
    else Settle(p, s, i, organization, [], o)
  }

  function SettleAll(p: Params, s: State, i: Instance, organization: string, items: seq<Object>): Outcome
    decreases |items|
  {
    if items == [] then Outcome(s, true)
    else
      var a := SettleOne(p, s, i, organization, items[0]);
      if !a.ok then a else SettleAll(p, a.s, i, organization, items[1..])
  }

  function Process(p: Params, s: State, i: Instance, organization: string, items: seq<Object>): Outcome {
    var m := if i.deleting then Outcome(s, true) else MarkAll(p, s, items);
    if !m.ok then m else SettleAll(p, m.s, i, organization, items)
  }

  /** What List returns at this point of the schedule. */
  function Snapshot(p: Params, s: State, kind: Kind, selector: Option<LabelSelector>): seq<Object> {
    var w := Begin(p, s).s.w;
    List(w.objects, Order(w), kind, selector)
  }

  function ReconcileKind(p: Params, s: State, i: Instance, kind: Kind, selector: Option<LabelSelector>, organization: string): Outcome {
    if !Convertible(selector) || !Convertible(p.selector) then Outcome(s, false)
    else
      var b := Begin(p, s);
      if !b.ok then b else Process(p, b.s, i, organization, Snapshot(p, s, kind, selector))
  }

  /** Features and clients of one organization after the other, listed by the organization's selector alone. */
  function ReconcileOwned(p: Params, s: State, i: Instance, orgs: seq<Object>): Outcome
    requires forall o | o in orgs :: o.spec.OrganizationSpec?
    decreases |orgs|
  {
    if orgs == [] then Outcome(s, true)
    else
      var f := ReconcileKind(p, s, i, FeatureKind, orgs[0].spec.resourceSelector, orgs[0].Id());
      if !f.ok then f
      else
        var c := ReconcileKind(p, f.s, i, ClientKind, orgs[0].spec.resourceSelector, orgs[0].Id());
        if !c.ok then c else ReconcileOwned(p, c.s, i, orgs[1..])
  }

  lemma SnapshotKinds(p: Params, s: State, selector: Option<LabelSelector>)
    ensures forall o | o in Snapshot(p, s, OrganizationKind, selector) :: o.spec.OrganizationSpec?
  {
    var w := Begin(p, s).s.w;
    ListMembers(w, OrganizationKind, selector);
  }

  function ReconcileAll(p: Params, s: State, i: Instance): Outcome {
    var u := ReconcileKind(p, s.(catalog := []), i, UserKind, p.selector, "");
    if !u.ok then u
    else
      var o := ReconcileKind(p, u.s, i, OrganizationKind, p.selector, "");
      if !o.ok then o
      else
        SnapshotKinds(p, u.s, p.selector);
        ReconcileOwned(p, o.s, i, Snapshot(p, u.s, OrganizationKind, p.selector))
  }

  function PatchInstance(p: Params, s: State, finalizers: seq<string>): Outcome {
    var b := Begin(p, s);
    if !b.ok then b
    else if b.s.w.instance.None? then Outcome(b.s, false)
    else
      var cur := b.s.w.instance.value;
      if cur.deleting && exists f | f in finalizers :: f !in cur.finalizers then Outcome(b.s, false)
      else if cur.deleting && finalizers == [] then Outcome(b.s.(w := b.s.w.(instance := None)), true)
      else Outcome(b.s.(w := b.s.w.(instance := Some(cur.(finalizers := finalizers)))), true)
  }

  /** One call of Reconcile. */
  function Reconcile(p: Params, s: State): Outcome {
    var b := Begin(p, s);
    if !b.ok || b.s.w.instance.None? || p.suspend then b
    else
      var i := b.s.w.instance.value;
      var m := if i.deleting then b else PatchInstance(p, b.s, With(i.finalizers, FinalizerNames.FINALIZER));
      if !m.ok then m
      else
        var r := ReconcileAll(p, m.s, i);
        if !r.ok || !i.deleting then r
        else PatchInstance(p, r.s, Without(i.finalizers, FinalizerNames.FINALIZER))
  }

  /** A run: passes, each on its own schedule, and the times between them. */
  datatype Round = Attempt(ticks: seq<Tick>) | Interval(events: seq<Event>)

  function After(p: Params, w: World, round: Round): World {
    match round
    case Attempt(ticks) => Reconcile(p, State(w, ticks, [])).s.w
    case Interval(events) => AppliedAll(p, w, events)
  }

  function Run(p: Params, w: World, rounds: seq<Round>): World
    decreases |rounds|
  {
    if rounds == [] then w else Run(p, After(p, w, rounds[0]), rounds[1..])
  }
}
