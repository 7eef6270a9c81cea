/**
 A complete pass read as a declaration: what every live listed resource finds in its document afterwards,
 field by field, whatever was stored before.
 */
module Declarations {
  import opened Wrappers
  import opened Documents
  import opened Resources
  import opened Selectors
  import opened FeatureMerge
  import opened FeatureTranslation
  import opened Upserts
  import opened Worlds
  import opened Pass
  import opened NoOrphans
  import opened NoStrands
  import opened Effects
  import opened Quiet
  import opened Target
  import opened Conformance
  import opened Demands
  import opened Identity

  /** The last listed organization that selects the object. */
  function LastOwner(orgs: seq<Object>, o: Object): Option<Object>
    decreases |orgs|
  {
    if orgs == [] then None
    else
      var later := LastOwner(orgs[1..], o);
      if later.Some? then later
      else if Selects(OwnSelector(orgs[0]), o.labels) then Some(orgs[0])
      else None
  }

  lemma {:induction false} LastOwnerExists(orgs: seq<Object>, o: Object)
    ensures LastOwner(orgs, o).Some? <==> exists org | org in orgs :: Selects(OwnSelector(org), o.labels)
    decreases |orgs|
  {
    if orgs != [] {
      LastOwnerExists(orgs[1..], o);
    }
  }

  /** Of several organizations that select a client the last one has its way. */
  lemma {:induction false} FoldedIsLast(p: Params, secrets: Secrets, i: Instance, orgs: seq<Object>, o: Object, d: Option<Doc>)
    requires o.spec.ClientSpec? && !Retiring(i, o) && Mergeable(secrets, o) && LastOwner(orgs, o).Some?
    ensures Folded(p, secrets, i, orgs, o, d) == Merge(p, secrets, LastOwner(orgs, o).value.Id(), [], o, d)
    decreases |orgs|
  {
    if LastOwner(orgs[1..], o).Some? {
      LastOwnerExists(orgs[1..], o);
      if Selects(OwnSelector(orgs[0]), o.labels) {
        FoldedForgets(p, secrets, i, orgs[1..], orgs[0].Id(), o, d);
      }
      FoldedIsLast(p, secrets, i, orgs[1..], o, d);
    } else {
      LastOwnerExists(orgs[1..], o);
      FoldedByNone(p, secrets, i, orgs[1..], o, Merge(p, secrets, orgs[0].Id(), [], o, d));
    }
  }

  lemma {:induction false} FoldedByNone(p: Params, secrets: Secrets, i: Instance, orgs: seq<Object>, o: Object, d: Option<Doc>)
    requires forall org | org in orgs :: !Selects(OwnSelector(org), o.labels)
    ensures Folded(p, secrets, i, orgs, o, d) == d
    decreases |orgs|
  {
    if orgs != [] {
      FoldedByNone(p, secrets, i, orgs[1..], o, d);
    }
  }

  /** A live user's document names it as declared. Whether its hash is of the current password is another
      matter: see CompletePassHashes. */
  ghost predicate UserDeclared(secrets: Secrets, o: Object, before: Option<Doc>, after: Option<Doc>)
    requires o.spec.UserSpec?
  {
    && SecretGiven(secrets, o)
    && AsUser(after).Some?
    && AsUser(after).value.id == DeclaredId(o)
    && AsUser(after).value.email == o.spec.email
    && AsUser(after).value.name == UserName(secrets, o)
    && AsUser(after).value.revision == (if AsUser(before).Some? then AsUser(before).value.revision else 0)
  }

  ghost predicate Bound(objects: map<nat, Object>, order: seq<nat>, b: Binding, m: Member) {
    exists u | u in order && u in objects :: Picked(objects[u], UserKind, b.selector) && m == Member(objects[u].Id(), b.role)
  }

  lemma {:induction false} MembersOfExactly(users: seq<Object>, role: string)
    ensures |MembersOf(users, role)| == |users|
    ensures forall k | 0 <= k < |users| :: MembersOf(users, role)[k] == Member(users[k].Id(), role)
  {
    if users != [] {
      MembersOfExactly(users[1..], role);
    }
  }

  lemma ListedMembersExactly(objects: map<nat, Object>, order: seq<nat>, b: Binding, m: Member)
    ensures m in MembersOf(List(objects, order, UserKind, b.selector), b.role) <==> Bound(objects, order, b, m)
  {
    var users := List(objects, order, UserKind, b.selector);
    ListedMembers(objects, order, UserKind, b.selector);
    MembersOfExactly(users, b.role);
    if Bound(objects, order, b, m) {
      var u :| u in order && u in objects && Picked(objects[u], UserKind, b.selector) && m == Member(objects[u].Id(), b.role);
      assert objects[u] in users;
      var k :| 0 <= k < |users| && users[k] == objects[u];
      assert MembersOf(users, b.role)[k] == m;
    }
    if m in MembersOf(users, b.role) {
      var k :| 0 <= k < |users| && MembersOf(users, b.role)[k] == m;
      assert users[k] in users;
    }
  }

  /** The members are exactly the users some binding selects, each in the role of that binding. */
  lemma {:induction false} AssignedExactly(objects: map<nat, Object>, order: seq<nat>, bindings: seq<Binding>, m: Member)
    ensures m in Assigned(objects, order, bindings) <==> exists b | b in bindings :: Bound(objects, order, b, m)
    decreases |bindings|
  {
    if bindings != [] {
      ListedMembersExactly(objects, order, bindings[0], m);
      AssignedExactly(objects, order, bindings[1..], m);
      assert bindings == [bindings[0]] + bindings[1..];
    }
  }

  /** Earlier bindings come first. */
  lemma {:induction false} AssignedInOrder(objects: map<nat, Object>, order: seq<nat>, a: seq<Binding>, b: seq<Binding>)
    ensures Assigned(objects, order, a + b) == Assigned(objects, order, a) + Assigned(objects, order, b)
    decreases |a|
  {
    if a == [] {
      assert a + b == b;
    } else {
      assert (a + b)[1..] == a[1..] + b;
      AssignedInOrder(objects, order, a[1..], b);
    }
  }

  /** The users who stay and whom a binding selects are the members; if there are none the members are those that
      were stored. */
  ghost predicate OrganizationDeclared(p: Params, w: World, o: Object, before: Option<Doc>, after: Option<Doc>)
    requires o.spec.OrganizationSpec?
  {
    var found, stored := Assigned(Stayers(p, w.objects), Order(w), o.spec.bindings), AsOrganization(before);
    && AsOrganization(after).Some?
    && OrganizationConforms(found, o, AsOrganization(after).value)
    && (found == [] ==> AsOrganization(after).value.members == if stored.Some? then stored.value.members else Items([]))
    && AsOrganization(after).value.revision == (if stored.Some? then stored.value.revision else 0)
  }

  /** A feature conforms for the first organization that selects it, unless it was stored for another one. If it
      was not stored at all it is the controller's, not archived. */
  ghost predicate FeatureDeclared(p: Params, w: World, o: Object, before: Option<Doc>, after: Option<Doc>)
    requires o.spec.FeatureSpec?
  {
    var first, stored := FirstOwner(ListedOrganizations(p, w), o), AsFeature(before);
    && first.Some?
    && AsFeature(after).Some?
    && var f, id := AsFeature(after).value, DeclaredId(first.value);
       && (FeatureConforms(p, id, o, f) <==> stored.None? || stored.value.organization == id)
       && (if stored.Some? then
             FeatureConforms(p, stored.value.organization, o, f) && f.owner == stored.value.owner && f.archived == stored.value.archived && f.revision == stored.value.revision
           else f.owner == "growthbook-controller" && !f.archived && f.revision == 0)
  }

  /** A client conforms for the last organization that selects it, unless it was stored with another choice
      about experiment names. */
  ghost predicate ClientDeclared(p: Params, w: World, o: Object, before: Option<Doc>, after: Option<Doc>)
    requires o.spec.ClientSpec?
  {
    var last, stored := LastOwner(ListedOrganizations(p, w), o), AsConnection(before);
    && last.Some?
    && AsConnection(after).Some?
    && TokenGiven(w.secrets, o)
    && (ConnectionConforms(w.secrets, DeclaredId(last.value), o, AsConnection(after).value) <==>
        stored.None? || stored.value.includeExperimentNames == o.spec.includeExperimentNames)
    && AsConnection(after).value.revision == (if stored.Some? then stored.value.revision else 0)
  }

  ghost predicate Declared(p: Params, w: World, o: Object, before: Option<Doc>, after: Option<Doc>) {
    match o.spec
    case UserSpec(_, _, _, _) => UserDeclared(w.secrets, o, before, after)
    case OrganizationSpec(_, _, _, _, _) => OrganizationDeclared(p, w, o, before, after)
    case FeatureSpec(_, _, _, _, _, _) => FeatureDeclared(p, w, o, before, after)
    case ClientSpec(_, _, _, _, _, _, _, _, _, _) => ClientDeclared(p, w, o, before, after)
  }

  lemma UserReached(p: Params, w: World, i: Instance, o: Object, after: Option<Doc>)
    requires o.spec.UserSpec? && !Retiring(i, o) && Selects(p.selector, o.labels) && Mergeable(w.secrets, o)
    requires ErasedOption(after) == TargetOf(p, w, i, o)
    ensures UserDeclared(w.secrets, o, Get(w.docs, o.Key()), after)
  {
  }

  lemma OrganizationReached(p: Params, w: World, i: Instance, o: Object, after: Option<Doc>)
    requires o.spec.OrganizationSpec? && !Retiring(i, o) && Selects(p.selector, o.labels)
    requires ErasedOption(after) == TargetOf(p, w, i, o)
    ensures OrganizationDeclared(p, w, o, Get(w.docs, o.Key()), after)
  {
  }

  /** What a feature conforms to survives erasing its dates. */
  lemma FeatureErasure(p: Params, organization: string, o: Object, before: Option<Doc>, after: Option<Doc>)
    requires o.spec.FeatureSpec? && VersionsPaired(o)
    requires var f := Translated(o, OWNER, organization, p.parse).value;
             ErasedOption(after) == Some(Erased(FeatureDoc(UpsertFeature(AsFeature(ErasedOption(before)), f, 0, false).doc)))
    ensures AsFeature(after).Some?
    ensures FeatureConforms(p, organization, o, AsFeature(after).value) <==>
            AsFeature(before).None? || AsFeature(before).value.organization == organization
    ensures var f := AsFeature(after).value;
            if AsFeature(before).Some? then
              var stored := AsFeature(before).value;
              FeatureConforms(p, stored.organization, o, f) && f.owner == stored.owner && f.archived == stored.archived && f.revision == stored.revision
            else f.owner == "growthbook-controller" && !f.archived && f.revision == 0
  {
    var existing := AsFeature(ErasedOption(before));
    FeatureConformsAfter(p, organization, o, existing, 0, false);
  }

  lemma FeatureReached(p: Params, w: World, i: Instance, o: Object, after: Option<Doc>)
    requires o.spec.FeatureSpec? && !Retiring(i, o) && Listed(p, w, o) && Mergeable(w.secrets, o)
    requires ErasedOption(after) == TargetOf(p, w, i, o)
    ensures FeatureDeclared(p, w, o, Get(w.docs, o.Key()), after)
  {
    var orgs := ListedOrganizations(p, w);
    FoldedIsFirst(p, w.secrets, i, orgs, o, Look(w.docs, o.Key()));
    FeatureErasure(p, FirstOwner(orgs, o).value.Id(), o, Get(w.docs, o.Key()), after);
  }

  /** What a client conforms to survives erasing its dates and keys. */
  lemma ClientErasure(p: Params, secrets: Secrets, organization: string, o: Object, before: Option<Doc>, after: Option<Doc>)
    requires o.spec.ClientSpec? && TokenGiven(secrets, o)
    requires ErasedOption(after) == Merge(p, secrets, organization, [], o, ErasedOption(before))
    ensures AsConnection(after).Some?
    ensures ConnectionConforms(secrets, organization, o, AsConnection(after).value) <==>
            AsConnection(before).None? || AsConnection(before).value.includeExperimentNames == o.spec.includeExperimentNames
    ensures AsConnection(after).value.revision == if AsConnection(before).Some? then AsConnection(before).value.revision else 0
  {
    KeyIsConnectionKey(secrets, o);
    MergeOfConnection(p, secrets, organization, o, ErasedOption(before));
  }

  lemma ClientReached(p: Params, w: World, i: Instance, o: Object, after: Option<Doc>)
    requires o.spec.ClientSpec? && !Retiring(i, o) && Listed(p, w, o) && Mergeable(w.secrets, o)
    requires ErasedOption(after) == TargetOf(p, w, i, o)
    ensures ClientDeclared(p, w, o, Get(w.docs, o.Key()), after)
  {
    var orgs := ListedOrganizations(p, w);
    FirstOwnerExists(orgs, o);
    LastOwnerExists(orgs, o);
    FoldedIsLast(p, w.secrets, i, orgs, o, Look(w.docs, o.Key()));
    ClientErasure(p, w.secrets, LastOwner(orgs, o).value.Id(), o, Get(w.docs, o.Key()), after);
  }

  /** After a complete pass of a live instance that nobody disturbs, every live listed resource finds its
      declaration in its document. */
  lemma CompletePassDeclares(p: Params, s: State, u: nat)
    requires QuietTicks(s.ticks) && WF(s.w) && s.w.instance.Some? && !s.w.instance.value.deleting && !p.suspend && Reconcile(p, s).ok
    requires u in s.w.objects && !s.w.objects[u].deleting && Listed(p, s.w, s.w.objects[u])
    ensures var o := s.w.objects[u];
            Declared(p, s.w, o, Get(s.w.docs, o.Key()), Get(Reconcile(p, s).s.w.docs, o.Key()))
  {
    var w, w', i, o := s.w, Reconcile(p, s).s.w, s.w.instance.value, s.w.objects[u];
    ReconcileProgress(p, s);
    assert Progress(p, w, w', i, o, true);
    var after := Get(w'.docs, o.Key());
    match o.spec
    case UserSpec(_, _, _, _) => UserReached(p, w, i, o, after);
    case OrganizationSpec(_, _, _, _, _) => OrganizationReached(p, w, i, o, after);
    case FeatureSpec(_, _, _, _, _, _) => FeatureReached(p, w, i, o, after);
    case ClientSpec(_, _, _, _, _, _, _, _, _, _) => ClientReached(p, w, i, o, after);
  }

  /** A user's hash after the pass: of its password exactly if the user was inserted or the stored hash was. */
  lemma CompletePassHashes(p: Params, w: World, ticks: seq<Tick>, u: nat)
    requires QuietTicks(ticks) && WF(w) && Filed(w.docs) && w.instance.Some? && !w.instance.value.deleting && !p.suspend
    requires Reconcile(p, State(w, ticks, [])).ok
    requires u in w.objects && !w.objects[u].deleting && Listed(p, w, w.objects[u]) && w.objects[u].spec.UserSpec?
    ensures var o := w.objects[u];
            var before, after := AsUser(Get(w.docs, o.Key())), AsUser(Get(Reconcile(p, State(w, ticks, [])).s.w.docs, o.Key()));
            && after.Some? && SecretGiven(w.secrets, o)
            && (UserConforms(p, w.secrets, o, after.value) <==>
                before.None? || Verifies(before.value.passwordHash, Password(w.secrets, o), p.scrypt))
  {
    var o, i := w.objects[u], w.instance.value;
    CompletePassDeclares(p, State(w, ticks, []), u);
    var draws := set t | t in ticks :: t.entropy;
    QuietPassContinues(p, w, i, w, ticks, draws);
    var x := Reconcile(p, State(w, ticks, [])).s.w;
    LiveIsNotDoomed(p, w, i, u, draws);
    assert u in ScopeOf(p, w, i, draws).objects;
    UserHashAfter(p, w.secrets, o, Get(w.docs, o.Key()), Get(x.docs, o.Key()));
  }

  lemma LiveIsNotDoomed(p: Params, w: World, i: Instance, u: nat, draws: set<Entropy>)
    requires WF(w) && u in w.objects && !Retiring(i, w.objects[u])
    ensures w.objects[u].Key() !in ScopeOf(p, w, i, draws).doomed
  {
  }

  lemma UserHashAfter(p: Params, secrets: Secrets, o: Object, before: Option<Doc>, after: Option<Doc>)
    requires o.spec.UserSpec? && UserDeclared(secrets, o, before, after) && (before.Some? ==> before.value.UserDoc?)
    requires if before.Some? then SameIdentity(before.value, after.value) else Hashed(p, secrets, o, after.value)
    ensures UserConforms(p, secrets, o, AsUser(after).value) <==>
            before.None? || Verifies(AsUser(before).value.passwordHash, Password(secrets, o), p.scrypt)
  {
  }
}
