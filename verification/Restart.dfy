/**
 Restart confluence: with nobody else acting and no organization being deleted, any number of passes cut
 short at any call, followed by a complete one, leave the documents one complete pass alone leaves, up to
 dates, random keys and password hashes.
 */
module Restart {
  import opened Wrappers
  import opened Documents
  import opened Selectors
  import opened Resources
  import opened Worlds
  import opened Pass
  import opened NoOrphans
  import opened NoStrands
  import opened Effects
  import opened Quiet
  import opened Target
  import opened Identity
  import opened Upserts

  /** The same objects in the same places, but for finalizers. */
  ghost predicate Alike(a: seq<Object>, b: seq<Object>) {
    |a| == |b| && forall j | 0 <= j < |a| :: b[j] == a[j].(finalizers := b[j].finalizers)
  }

  lemma {:induction false} ListAlike(a: map<nat, Object>, b: map<nat, Object>, order: seq<nat>, kind: Kind, selector: Option<LabelSelector>)
    requires forall u | u in a && a[u].Kind() == kind :: u in b
    requires forall u | u in b :: u in a && b[u] == a[u].(finalizers := b[u].finalizers)
    ensures Alike(List(a, order, kind, selector), List(b, order, kind, selector))
  {
    if order != [] {
      ListAlike(a, b, order[1..], kind, selector);
    }
  }

  lemma {:induction false} FoldedAlike(p: Params, secrets: Secrets, i: Instance, a: seq<Object>, b: seq<Object>, o: Object, d: Option<Doc>)
    requires Alike(a, b)
    ensures Folded(p, secrets, i, b, o, d) == Folded(p, secrets, i, a, o, d)
    ensures FirstOwner(a, o).Some? == FirstOwner(b, o).Some?
    decreases |a|
  {
    if a != [] {
      assert OwnSelector(b[0]) == OwnSelector(a[0]) && b[0].Id() == a[0].Id();
      FoldedAlike(p, secrets, i, a[1..], b[1..], o,
                  if Selects(OwnSelector(a[0]), o.labels) then Effect(p, secrets, i, a[0].Id(), [], o, d) else d);
    }
  }

  /** Another instance record of the same life. */
  lemma {:induction false} FoldedByDeleting(p: Params, secrets: Secrets, i: Instance, i': Instance, orgs: seq<Object>, o: Object, d: Option<Doc>)
    requires i.deleting == i'.deleting
    ensures Folded(p, secrets, i', orgs, o, d) == Folded(p, secrets, i, orgs, o, d)
    decreases |orgs|
  {
    if orgs != [] {
      FoldedByDeleting(p, secrets, i, i', orgs[1..], o,
                       if Selects(OwnSelector(orgs[0]), o.labels) then Effect(p, secrets, i, orgs[0].Id(), [], o, d) else d);
    }
  }

  lemma EffectTwice(p: Params, secrets: Secrets, i: Instance, members: seq<Member>, o: Object, d: Option<Doc>)
    requires !Nested(o) && (Retiring(i, o) || Mergeable(secrets, o))
    ensures Effect(p, secrets, i, "", members, o, Effect(p, secrets, i, "", members, o, d)) == Effect(p, secrets, i, "", members, o, d)
  {
    if !Retiring(i, o) {
      MergeIdempotentOnce(p, secrets, members, o, d);
    }
  }

  /** Everything the pass lists can be merged, as a complete pass shows. */
  ghost predicate AllMergeable(p: Params, w: World, i: Instance) {
    forall u | u in w.objects && !Retiring(i, w.objects[u]) && Listed(p, w, w.objects[u]) :: Mergeable(w.secrets, w.objects[u])
  }

  lemma GoneIsListed(p: Params, w: World, w': World, i: Instance, ok: bool, o: Object)
    requires Progress(p, w, w', i, o, ok) && o.uid !in w'.objects
    ensures Listed(p, w, o)
  {
  }

  ghost predicate OnlyListedGo(p: Params, w: World, w': World) {
    forall u | u in w.objects && u !in w'.objects :: Listed(p, w, w.objects[u])
  }

  lemma OnlyListedGone(p: Params, w: World, w': World, i: Instance, ok: bool)
    requires WF(w) && AllProgress(p, w, w', i, ok)
    ensures OnlyListedGo(p, w, w')
  {
    forall u | u in w.objects && u !in w'.objects
      ensures Listed(p, w, w.objects[u])
    {
      GoneIsListed(p, w, w', i, ok, w.objects[u]);
    }
  }

  lemma StayerAlike(p: Params, w: World, w': World, u: nat)
    requires Isolates(p, w, w') && OnlyListedGo(p, w, w')
    ensures (u in w.objects && w.objects[u].Kind() == UserKind && !Doomed(p, w.objects[u])) <==>
            (u in w'.objects && w'.objects[u].Kind() == UserKind && !Doomed(p, w'.objects[u]))
    ensures u in w.objects && u in w'.objects ==> w.objects[u].Id() == w'.objects[u].Id() && w.objects[u].labels == w'.objects[u].labels
  {
    if u in w.objects && u !in w'.objects && w.objects[u].Kind() == UserKind {
      assert Listed(p, w, w.objects[u]) && Doomed(p, w.objects[u]);
    }
  }

  lemma StayersAlike(p: Params, w: World, w': World)
    requires Isolates(p, w, w') && OnlyListedGo(p, w, w')
    ensures SameUsers(Stayers(p, w.objects), Stayers(p, w'.objects))
  {
    forall u {
      StayerAlike(p, w, w', u);
    }
  }

  lemma OrganizationsAlike(p: Params, w: World, w': World)
    requires WF(w) && Steady(w) && Isolates(p, w, w')
    ensures Alike(ListedOrganizations(p, w), ListedOrganizations(p, w'))
  {
    assert forall u | u in w.objects && u !in w'.objects :: w.objects[u].deleting;
    ListAlike(w.objects, w'.objects, Order(w), OrganizationKind, p.selector);
  }

  /** Where a pass was cut short, the target of an object still there is what it was. */
  lemma NestedTargetKept(p: Params, w: World, w': World, i: Instance, i': Instance, ok: bool, o: Object, o': Object)
    requires WF(w) && Steady(w) && Isolates(p, w, w') && AllMergeable(p, w, i) && i'.deleting == i.deleting
    requires o.uid in w.objects && w.objects[o.uid] == o && o.uid in w'.objects && w'.objects[o.uid] == o' && Nested(o)
    requires Progress(p, w, w', i, o, ok)
    ensures TargetOf(p, w', i', o') == TargetOf(p, w, i, o)
  {
    var orgs, orgs' := ListedOrganizations(p, w), ListedOrganizations(p, w');
    var d, d' := Look(w.docs, o.Key()), Look(w'.docs, o.Key());
    OrganizationsAlike(p, w, w');
    var n: nat :| n <= |orgs| && d' == Folded(p, w.secrets, i, orgs[..n], o, d);
    FoldedRestart(p, w.secrets, i, orgs, n, o, d);
    FoldedAlike(p, w.secrets, i, orgs, orgs', o', d');
    FoldedSame(p, w.secrets, i, orgs, o, o', d');
    FoldedByDeleting(p, w.secrets, i, i', orgs', o', d');
    assert o'.Key() == o.Key();
  }

  lemma DirectTargetKept(p: Params, w: World, w': World, i: Instance, i': Instance, ok: bool, o: Object, o': Object)
    requires WF(w) && Isolates(p, w, w') && AllMergeable(p, w, i) && i'.deleting == i.deleting && AllProgress(p, w, w', i, ok)
    requires o.uid in w.objects && w.objects[o.uid] == o && o.uid in w'.objects && w'.objects[o.uid] == o' && !Nested(o)
    ensures TargetOf(p, w', i', o') == TargetOf(p, w, i, o)
  {
    assert Progress(p, w, w', i, o, ok);
    var d, d' := Look(w.docs, o.Key()), Look(w'.docs, o.Key());
    if Selects(p.selector, o.labels) {
      var members := MembersFor(Stayers(p, w.objects), Order(w), o);
      OnlyListedGone(p, w, w', i, ok);
      StayersAlike(p, w, w');
      if o.spec.OrganizationSpec? {
        AssignedSame(Stayers(p, w.objects), Stayers(p, w'.objects), Order(w), o.spec.bindings);
      }
      assert MembersFor(Stayers(p, w'.objects), Order(w'), o') == members;
      EffectSame(p, w.secrets, i', "", members, o, o', d');
      EffectTwice(p, w.secrets, i, members, o, d);
    }
  }

  /** The object's document is at its target, or the target is still ahead. */
  ghost predicate Aimed(p: Params, w: World, i: Instance, v: World, u: nat)
    requires u in w.objects
  {
    if u in v.objects && v.instance.Some? then TargetOf(p, v, v.instance.value, v.objects[u]) == TargetOf(p, w, i, w.objects[u])
    else Look(v.docs, w.objects[u].Key()) == TargetOf(p, w, i, w.objects[u])
  }

  /** A world on the way from w: every document of a gone object is at its target, and no target moved. */
  ghost predicate Underway(p: Params, w: World, i: Instance, v: World) {
    && WF(v) && Isolates(p, w, v)
    && (v.instance.Some? ==> v.instance.value.deleting == i.deleting)
    && (forall u | u in w.objects :: Aimed(p, w, i, v, u))
    && (forall k | Strange(w, k) :: Get(v.docs, k) == Get(w.docs, k))
  }

  ghost predicate Strange(w: World, k: DocKey) {
    Unkeyed(w, UserKind, k) && Unkeyed(w, OrganizationKind, k) && Unkeyed(w, FeatureKind, k) && Unkeyed(w, ClientKind, k)
  }

  lemma StrangeLater(p: Params, w: World, v: World, u: nat)
    requires WF(w) && Isolates(p, w, v) && u in w.objects && u !in v.objects
    ensures Strange(v, w.objects[u].Key())
  {
  }

  lemma StaysMergeable(p: Params, w: World, v: World, i: Instance)
    requires WF(w) && Steady(w) && Isolates(p, w, v) && AllMergeable(p, w, i)
    ensures AllMergeable(p, v, i)
  {
    OrganizationsAlike(p, w, v);
    forall u | u in v.objects && !Retiring(i, v.objects[u]) && Listed(p, v, v.objects[u])
      ensures Mergeable(v.secrets, v.objects[u])
    {
      var o, o' := w.objects[u], v.objects[u];
      FoldedAlike(p, w.secrets, i, ListedOrganizations(p, w), ListedOrganizations(p, v), o', None);
      FoldedSame(p, w.secrets, i, ListedOrganizations(p, w), o, o', None);
      assert Listed(p, w, o) && Mergeable(w.secrets, o);
    }
  }

  /** What a pass that nobody disturbs does to the world. */
  ghost predicate Passed(p: Params, v: World, x: World, ok: bool) {
    && v.instance.Some? && WF(x) && Isolates(p, v, x) && AllProgress(p, v, x, v.instance.value, ok)
    && Outlives(v, x, ok)
  }

  lemma QuietPass(p: Params, v: World, ticks: seq<Tick>)
    requires QuietTicks(ticks) && WF(v) && !p.suspend
    ensures var r := Reconcile(p, State(v, ticks, []));
            if v.instance.Some? then Passed(p, v, r.s.w, r.ok) else r.s.w == v
  {
    BeginIsQuiet(p, State(v, ticks, []));
    if v.instance.Some? {
      ReconcileProgress(p, State(v, ticks, []));
    }
  }

  lemma MergeableByDeleting(p: Params, w: World, i: Instance, j: Instance)
    requires AllMergeable(p, w, i) && i.deleting == j.deleting
    ensures AllMergeable(p, w, j)
  {
    forall u | u in w.objects && !Retiring(j, w.objects[u]) && Listed(p, w, w.objects[u])
      ensures Mergeable(w.secrets, w.objects[u])
    {
      assert !Retiring(i, w.objects[u]);
    }
  }

  lemma TargetKept(p: Params, v: World, x: World, ok: bool, u: nat)
    requires WF(v) && Steady(v) && Passed(p, v, x, ok) && AllMergeable(p, v, v.instance.value)
    requires u in v.objects && u in x.objects && x.instance.Some?
    ensures TargetOf(p, x, x.instance.value, x.objects[u]) == TargetOf(p, v, v.instance.value, v.objects[u])
  {
    if Nested(v.objects[u]) {
      assert Progress(p, v, x, v.instance.value, v.objects[u], ok);
      NestedTargetKept(p, v, x, v.instance.value, x.instance.value, ok, v.objects[u], x.objects[u]);
    } else {
      DirectTargetKept(p, v, x, v.instance.value, x.instance.value, ok, v.objects[u], x.objects[u]);
    }
  }

  lemma TargetReached(p: Params, v: World, x: World, ok: bool, u: nat)
    requires WF(v) && Passed(p, v, x, ok) && u in v.objects && !(u in x.objects && x.instance.Some?)
    ensures Look(x.docs, v.objects[u].Key()) == TargetOf(p, v, v.instance.value, v.objects[u])
  {
    assert Progress(p, v, x, v.instance.value, v.objects[u], ok);
  }

  lemma TargetLeft(p: Params, w: World, v: World, x: World, ok: bool, u: nat)
    requires WF(w) && Isolates(p, w, v) && Passed(p, v, x, ok) && u in w.objects && u !in v.objects
    ensures u !in x.objects && Look(x.docs, w.objects[u].Key()) == Look(v.docs, w.objects[u].Key())
  {
    StrangeLater(p, w, v, u);
  }

  lemma SteadyLater(p: Params, w: World, v: World)
    requires Steady(w) && Isolates(p, w, v)
    ensures Steady(v)
  {
  }

  lemma StillMergeable(p: Params, w: World, i: Instance, v: World)
    requires WF(w) && Steady(w) && AllMergeable(p, w, i) && Isolates(p, w, v)
    requires v.instance.Some? && v.instance.value.deleting == i.deleting
    ensures Steady(v) && AllMergeable(p, v, v.instance.value)
  {
    StaysMergeable(p, w, v, i);
    MergeableByDeleting(p, v, i, v.instance.value);
    SteadyLater(p, w, v);
  }

  /** One pass: the target is where it was, or the document is at it. */
  ghost predicate Moved(p: Params, v: World, x: World, u: nat)
    requires u in v.objects && v.instance.Some?
  {
    if u in x.objects && x.instance.Some? then TargetOf(p, x, x.instance.value, x.objects[u]) == TargetOf(p, v, v.instance.value, v.objects[u])
    else Look(x.docs, v.objects[u].Key()) == TargetOf(p, v, v.instance.value, v.objects[u])
  }

  lemma PassMoves(p: Params, v: World, x: World, ok: bool, u: nat)
    requires Passed(p, v, x, ok) && WF(v) && Steady(v) && AllMergeable(p, v, v.instance.value) && u in v.objects
    ensures Moved(p, v, x, u)
  {
    if u in x.objects && x.instance.Some? {
      TargetKept(p, v, x, ok, u);
    } else {
      TargetReached(p, v, x, ok, u);
    }
  }

  lemma AimComposes(p: Params, w: World, i: Instance, v: World, x: World, u: nat)
    requires u in w.objects && v.instance.Some? && Isolates(p, w, v) && Isolates(p, v, x) && Aimed(p, w, i, v, u)
    requires if u in v.objects then Moved(p, v, x, u) else u !in x.objects && Look(x.docs, w.objects[u].Key()) == Look(v.docs, w.objects[u].Key())
    ensures Aimed(p, w, i, x, u)
  {
    if u in v.objects {
      assert v.objects[u].Key() == w.objects[u].Key();
    }
  }

  lemma ObjectStaysUnderway(p: Params, w: World, i: Instance, v: World, x: World, ok: bool, u: nat)
    requires WF(w) && Steady(w) && AllMergeable(p, w, i) && WF(v) && Isolates(p, w, v) && Passed(p, v, x, ok)
    requires v.instance.value.deleting == i.deleting && u in w.objects && Aimed(p, w, i, v, u)
    ensures Aimed(p, w, i, x, u)
  {
    if u in v.objects {
      StillMergeable(p, w, i, v);
      PassMoves(p, v, x, ok, u);
    } else {
      TargetLeft(p, w, v, x, ok, u);
    }
    AimComposes(p, w, i, v, x, u);
  }

  lemma StrangeStays(p: Params, w: World, v: World, k: DocKey)
    requires Isolates(p, w, v) && Strange(w, k)
    ensures Strange(v, k)
  {
  }

  /** A pass cut short, or complete, stays on the way. */
  lemma PassStaysUnderway(p: Params, w: World, i: Instance, v: World, x: World, ok: bool)
    requires WF(w) && Steady(w) && AllMergeable(p, w, i) && Underway(p, w, i, v) && Passed(p, v, x, ok)
    ensures Underway(p, w, i, x)
  {
    IsolatesTransitive(p, w, v, x);
    forall u | u in w.objects
      ensures Aimed(p, w, i, x, u)
    {
      ObjectStaysUnderway(p, w, i, v, x, ok, u);
    }
    forall k | Strange(w, k)
      ensures Get(x.docs, k) == Get(w.docs, k)
    {
      StrangeStays(p, w, v, k);
    }
  }

  lemma {:induction false} RunStaysUnderway(p: Params, w: World, i: Instance, v: World, rounds: seq<Round>)
    requires WF(w) && Steady(w) && AllMergeable(p, w, i) && Underway(p, w, i, v) && !p.suspend
    requires forall r | r in rounds :: QuietRound(r)
    ensures Underway(p, w, i, Run(p, v, rounds))
    decreases |rounds|
  {
    if rounds != [] {
      assert QuietRound(rounds[0]);
      var r := Reconcile(p, State(v, rounds[0].ticks, []));
      QuietPass(p, v, rounds[0].ticks);
      if v.instance.Some? {
        PassStaysUnderway(p, w, i, v, r.s.w, r.ok);
      }
      RunStaysUnderway(p, w, i, r.s.w, rounds[1..]);
    }
  }

  lemma CompletePassEnds(p: Params, v: World, x: World, u: nat)
    requires Passed(p, v, x, true) && u in v.objects
    ensures Look(x.docs, v.objects[u].Key()) == TargetOf(p, v, v.instance.value, v.objects[u])
  {
    assert Progress(p, v, x, v.instance.value, v.objects[u], true);
  }

  lemma EndComposes(p: Params, w: World, i: Instance, v: World, x: World, u: nat)
    requires u in w.objects && v.instance.Some? && Isolates(p, w, v) && Aimed(p, w, i, v, u)
    requires if u in v.objects then Look(x.docs, v.objects[u].Key()) == TargetOf(p, v, v.instance.value, v.objects[u])
             else Look(x.docs, w.objects[u].Key()) == Look(v.docs, w.objects[u].Key())
    ensures Look(x.docs, w.objects[u].Key()) == TargetOf(p, w, i, w.objects[u])
  {
    if u in v.objects {
      assert v.objects[u].Key() == w.objects[u].Key();
    }
  }

  /** From anywhere on the way, a complete pass ends at the targets of the start. */
  lemma UnderwayEnds(p: Params, w: World, i: Instance, v: World, x: World, u: nat)
    requires WF(w) && Isolates(p, w, v) && (if v.instance.Some? then Passed(p, v, x, true) else x == v)
    requires u in w.objects && Aimed(p, w, i, v, u)
    ensures Look(x.docs, w.objects[u].Key()) == TargetOf(p, w, i, w.objects[u])
  {
    if v.instance.Some? {
      if u in v.objects {
        CompletePassEnds(p, v, x, u);
      } else {
        TargetLeft(p, w, v, x, true, u);
      }
      EndComposes(p, w, i, v, x, u);
    }
  }

  lemma StrangeEnds(p: Params, w: World, i: Instance, v: World, x: World, k: DocKey)
    requires WF(w) && Underway(p, w, i, v) && (if v.instance.Some? then Passed(p, v, x, true) else x == v)
    requires Strange(w, k)
    ensures Look(x.docs, k) == Look(w.docs, k)
  {
    StrangeStays(p, w, v, k);
  }

  lemma SameEnds(p: Params, w: World, i: Instance, a: World, b: World)
    requires WF(w)
    requires forall k | Strange(w, k) :: Look(a.docs, k) == Look(w.docs, k) == Look(b.docs, k)
    requires forall u | u in w.objects :: Look(a.docs, w.objects[u].Key()) == TargetOf(p, w, i, w.objects[u]) == Look(b.docs, w.objects[u].Key())
    ensures forall k :: Look(b.docs, k) == Look(a.docs, k)
  {
    forall k
      ensures Look(b.docs, k) == Look(a.docs, k)
    {
      if !Strange(w, k) {
        assert exists u :: u in w.objects && w.objects[u].Key() == k;
      }
    }
  }

  /** Two worlds on the way end alike. */
  lemma UnderwayConfluence(p: Params, w: World, i: Instance, v: World, x: World, v': World, x': World)
    requires WF(w) && Underway(p, w, i, v) && Underway(p, w, i, v')
    requires if v.instance.Some? then Passed(p, v, x, true) else x == v
    requires if v'.instance.Some? then Passed(p, v', x', true) else x' == v'
    ensures forall k :: Look(x'.docs, k) == Look(x.docs, k)
  {
    forall k | Strange(w, k)
      ensures Look(x.docs, k) == Look(w.docs, k) == Look(x'.docs, k)
    {
      StrangeEnds(p, w, i, v, x, k);
      StrangeEnds(p, w, i, v', x', k);
    }
    forall u | u in w.objects
      ensures Look(x.docs, w.objects[u].Key()) == TargetOf(p, w, i, w.objects[u]) == Look(x'.docs, w.objects[u].Key())
    {
      UnderwayEnds(p, w, i, v, x, u);
      UnderwayEnds(p, w, i, v', x', u);
    }
    SameEnds(p, w, i, x, x');
  }

  lemma UnderwayAtOnce(p: Params, w: World)
    requires WF(w) && w.instance.Some?
    ensures Underway(p, w, w.instance.value, w)
  {
  }

  lemma CompletePassShowsMergeable(p: Params, w: World, x: World)
    requires WF(w) && Passed(p, w, x, true)
    ensures AllMergeable(p, w, w.instance.value)
  {
    forall u | u in w.objects && !Retiring(w.instance.value, w.objects[u]) && Listed(p, w, w.objects[u])
      ensures Mergeable(w.secrets, w.objects[u])
    {
      assert Progress(p, w, x, w.instance.value, w.objects[u], true);
    }
  }

  /** Undisturbed passes keep isolating, and keep the identity of what is not doomed. */
  lemma {:induction false} QuietRunContinues(p: Params, w: World, i: Instance, v: World, rounds: seq<Round>, draws: set<Entropy>)
    requires WF(w) && WF(v) && Isolates(p, w, v) && Filed(v.docs) && (v.instance.Some? ==> v.instance.value.deleting == i.deleting)
    requires (forall r | r in rounds :: QuietRound(r)) && DrawsOf(rounds) <= draws
    ensures Continues(p, ScopeOf(p, w, i, draws), v.docs, Run(p, v, rounds).docs)
    decreases |rounds|
  {
    ContinuesReflexive(p, ScopeOf(p, w, i, draws), v.docs);
    if rounds != [] {
      assert QuietRound(rounds[0]);
      var x := Reconcile(p, State(v, rounds[0].ticks, [])).s.w;
      assert forall t | t in rounds[0].ticks :: t.entropy in DrawsOf(rounds);
      assert DrawsOf(rounds[1..]) <= DrawsOf(rounds);
      QuietPassContinues(p, w, i, v, rounds[0].ticks, draws);
      QuietPassIsolates(p, v, rounds[0].ticks);
      IsolatesTransitive(p, w, v, x);
      QuietRunContinues(p, w, i, x, rounds[1..], draws);
      ContinuesTransitive(p, ScopeOf(p, w, i, draws), v.docs, x.docs, Run(p, v, rounds).docs);
    }
  }

  lemma QuietPassIsolates(p: Params, v: World, ticks: seq<Tick>)
    requires QuietTicks(ticks) && WF(v)
    ensures var x := Reconcile(p, State(v, ticks, [])).s.w;
            WF(x) && Isolates(p, v, x) && (x.instance.Some? ==> v.instance.Some? && x.instance.value.deleting == v.instance.value.deleting)
  {
    BeginIsQuiet(p, State(v, ticks, []));
    if !p.suspend {
      QuietPass(p, v, ticks);
    }
  }

  /** The object whose document undisturbed passes delete. */
  ghost predicate Condemned(p: Params, w: World, k: DocKey) {
    p.prune && w.instance.Some? && exists u | u in w.objects :: Retiring(w.instance.value, w.objects[u]) && w.objects[u].Key() == k
  }

  ghost predicate UsersHashed(p: Params, w: World, x: World) {
    forall u | u in w.objects && w.objects[u].spec.UserSpec? && w.objects[u].Key() !in w.docs && w.objects[u].Key() in x.docs ::
      Hashed(p, w.secrets, w.objects[u], x.docs[w.objects[u].Key()])
  }

  /** Over undisturbed passes, complete or cut short, with prune or without: a document that was there keeps its
      identity, or belongs to a retiring object and is gone or untouched; and a user that was inserted has a
      hash of its password. */
  lemma IdentityOverQuietRuns(p: Params, w: World, rounds: seq<Round>)
    requires WF(w) && Filed(w.docs) && w.instance.Some? && forall r | r in rounds :: QuietRound(r)
    ensures var x := Run(p, w, rounds);
            && (forall k | k in w.docs && !Condemned(p, w, k) :: k in x.docs && SameIdentity(w.docs[k], x.docs[k]))
            && (forall k | k in x.docs && Condemned(p, w, k) :: k in w.docs && x.docs[k] == w.docs[k])
            && UsersHashed(p, w, x)
  {
    var c, x := ScopeOf(p, w, w.instance.value, DrawsOf(rounds)), Run(p, w, rounds);
    QuietRunContinues(p, w, w.instance.value, w, rounds, DrawsOf(rounds));
    assert forall k :: k in c.doomed <==> Condemned(p, w, k);
  }

  /** A document without the date of its last change. */
  function Undated(d: Doc): Doc {
    match d
    case UserDoc(u) => d
    case OrganizationDoc(o) => d
    case FeatureDoc(f) => FeatureDoc(f.(dateUpdated := 0))
    case ConnectionDoc(c) => ConnectionDoc(c.(dateUpdated := 0))
  }

  lemma SameButForDate(a: Doc, b: Doc, c: Doc)
    requires SameIdentity(a, b) && SameIdentity(a, c) && Erased(b) == Erased(c)
    ensures Undated(b) == Undated(c)
  {
  }

  lemma ConfluenceKeeps(w: Docs, clean: Docs, restarted: Docs, k: DocKey)
    requires Look(restarted, k) == Look(clean, k) && k in w && k in clean
    requires (SameIdentity(w[k], clean[k]) || clean[k] == w[k]) && (k in restarted ==> SameIdentity(w[k], restarted[k]) || restarted[k] == w[k])
    ensures k in restarted && Undated(restarted[k]) == Undated(clean[k])
  {
    assert Get(clean, k) == Some(clean[k]) && Get(restarted, k).Some?;
    SameButForDate(w[k], clean[k], restarted[k]);
  }

  lemma {:induction false} RunAppend(p: Params, w: World, a: seq<Round>, b: seq<Round>)
    ensures Run(p, w, a + b) == Run(p, Run(p, w, a), b)
    decreases |a|
  {
    if a == [] {
      assert a + b == b;
    } else {
      assert (a + b)[1..] == a[1..] + b;
      RunAppend(p, After(p, w, a[0]), a[1..], b);
    }
  }

  lemma LastAttempt(p: Params, w: World, rounds: seq<Round>, last: seq<Tick>)
    ensures Run(p, w, rounds + [Attempt(last)]) == Reconcile(p, State(Run(p, w, rounds), last, [])).s.w
  {
    RunAppend(p, w, rounds, [Attempt(last)]);
  }

  lemma ConfluentIdentity(p: Params, w: World, rounds: seq<Round>, once: seq<Tick>, last: seq<Tick>)
    requires WF(w) && Filed(w.docs) && w.instance.Some?
    requires QuietTicks(once) && QuietTicks(last) && forall r | r in rounds :: QuietRound(r)
    requires var clean, restarted := Reconcile(p, State(w, once, [])).s.w, Reconcile(p, State(Run(p, w, rounds), last, [])).s.w;
             forall k :: Look(restarted.docs, k) == Look(clean.docs, k)
    ensures var clean, restarted := Reconcile(p, State(w, once, [])).s.w, Reconcile(p, State(Run(p, w, rounds), last, [])).s.w;
            && (forall k | k in w.docs && k in clean.docs :: k in restarted.docs && Undated(restarted.docs[k]) == Undated(clean.docs[k]))
            && UsersHashed(p, w, clean) && UsersHashed(p, w, restarted)
  {
    var clean, restarted := Reconcile(p, State(w, once, [])).s.w, Reconcile(p, State(Run(p, w, rounds), last, [])).s.w;
    LastAttempt(p, w, [], once);
    LastAttempt(p, w, rounds, last);
    assert [] + [Attempt(once)] == [Attempt(once)];
    IdentityOverQuietRuns(p, w, [Attempt(once)]);
    IdentityOverQuietRuns(p, w, rounds + [Attempt(last)]);
    forall k | k in w.docs && k in clean.docs
      ensures k in restarted.docs && Undated(restarted.docs[k]) == Undated(clean.docs[k])
    {
      ConfluenceKeeps(w.docs, clean.docs, restarted.docs, k);
    }
  }

  /** Restart confluence: passes cut short anywhere and then a complete one leave what one complete pass
      leaves. Documents that were there at the start even agree in creation date, keys and password hash, so
      but for the date of the last change; and a user either run inserts has a hash of its password. */
  lemma RestartConfluence(p: Params, w: World, rounds: seq<Round>, once: seq<Tick>, last: seq<Tick>)
    requires WF(w) && Steady(w) && w.instance.Some? && !p.suspend
    requires QuietTicks(once) && QuietTicks(last) && forall r | r in rounds :: QuietRound(r)
    requires Reconcile(p, State(w, once, [])).ok && Reconcile(p, State(Run(p, w, rounds), last, [])).ok
    ensures var clean, restarted := Reconcile(p, State(w, once, [])).s.w, Reconcile(p, State(Run(p, w, rounds), last, [])).s.w;
            && (forall k :: Look(restarted.docs, k) == Look(clean.docs, k))
            && (Filed(w.docs) ==>
                  && (forall k | k in w.docs && k in clean.docs :: k in restarted.docs && Undated(restarted.docs[k]) == Undated(clean.docs[k]))
                  && UsersHashed(p, w, clean) && UsersHashed(p, w, restarted))
  {
    var i := w.instance.value;
    var clean, restarted := Reconcile(p, State(w, once, [])).s.w, Reconcile(p, State(Run(p, w, rounds), last, [])).s.w;
    QuietPass(p, w, once);
    CompletePassShowsMergeable(p, w, clean);
    UnderwayAtOnce(p, w);
    RunStaysUnderway(p, w, i, w, rounds);
    QuietPass(p, Run(p, w, rounds), last);
    UnderwayConfluence(p, w, i, w, clean, Run(p, w, rounds), restarted);
    if Filed(w.docs) {
      ConfluentIdentity(p, w, rounds, once, last);
    }
  }
}
