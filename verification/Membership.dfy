/**
 The members of an organization over whole runs: passes that nobody disturbs, and anything in between.
 */
module Membership {
  import opened Wrappers
  import opened Documents
  import opened Selectors
  import opened Resources
  import opened Worlds
  import opened Pass
  import opened NoOrphans
  import opened NoStrands
  import opened Effects
  import opened Quiet
  import opened Target
  import opened Restart
  import opened Conformance
  import opened Declarations

  /** The stored members, if there is a document. */
  function MembersAt(docs: Docs, k: DocKey): Option<Slice<Member>> {
    var g := AsOrganization(Get(docs, k));
    if g.Some? then Some(g.value.members) else None
  }

  ghost predicate IsListed(p: Params, w: World, k: DocKey, u: nat) {
    u in w.objects && w.objects[u].Key() == k && Listed(p, w, w.objects[u])
  }

  /** What a complete pass makes of the members: those it finds if there are any; without any, those that were
      stored, or the empty list. */
  ghost function PassMembers(p: Params, w: World, k: DocKey, m: Option<Slice<Member>>): Option<Slice<Member>> {
    if w.instance.None? || p.suspend || !exists u: nat :: IsListed(p, w, k, u) then m
    else
      var u: nat :| IsListed(p, w, k, u);
      var o := w.objects[u];
      if Retiring(w.instance.value, o) then if p.prune then None else m
      else
        var found := MembersFor(Stayers(p, w.objects), Order(w), o);
        if found != [] then Some(Items(found)) else if m.None? then Some(Items([])) else m
  }

  /** What an act of somebody else makes of them. */
  function EventMembers(e: Event, k: DocKey, m: Option<Slice<Member>>): Option<Slice<Member>> {
    match e
    case WriteDoc(doc) => if doc.Key() == k && doc.OrganizationDoc? then Some(doc.organization.members) else m
    case RemoveDoc(key) => if key == k then None else m
    case _ => m
  }

  function EventsMembers(events: seq<Event>, k: DocKey, m: Option<Slice<Member>>): Option<Slice<Member>>
    decreases |events|
  {
    if events == [] then m else EventsMembers(events[1..], k, EventMembers(events[0], k, m))
  }

  ghost function RunMembers(p: Params, w: World, rounds: seq<Round>, k: DocKey, m: Option<Slice<Member>>): Option<Slice<Member>>
    decreases |rounds|
  {
    if rounds == [] then m
    else
      var m' := match rounds[0]
        case Attempt(ticks) => PassMembers(p, w, k, m)
        case Interval(events) => EventsMembers(events, k, m);
      RunMembers(p, After(p, w, rounds[0]), rounds[1..], k, m')
  }

  /** Every pass of the run completes undisturbed. */
  ghost predicate Completes(p: Params, w: World, rounds: seq<Round>)
    decreases |rounds|
  {
    rounds != [] ==>
      && (rounds[0].Attempt? ==> QuietTicks(rounds[0].ticks) && Reconcile(p, State(w, rounds[0].ticks, [])).ok)
      && Completes(p, After(p, w, rounds[0]), rounds[1..])
  }

  lemma EventMakesMembers(p: Params, w: World, e: Event, k: DocKey)
    requires k.kind == OrganizationKind
    ensures MembersAt(Applied(p, w, e).docs, k) == EventMembers(e, k, MembersAt(w.docs, k))
  {
    if !e.WriteDoc? && !e.RemoveDoc? {
      assert Applied(p, w, e).docs == w.docs;
    }
  }

  lemma {:induction false} EventsMakeMembers(p: Params, w: World, events: seq<Event>, k: DocKey)
    requires k.kind == OrganizationKind
    ensures MembersAt(AppliedAll(p, w, events).docs, k) == EventsMembers(events, k, MembersAt(w.docs, k))
    decreases |events|
  {
    if events != [] {
      EventMakesMembers(p, w, events[0], k);
      EventsMakeMembers(p, Applied(p, w, events[0]), events[1..], k);
    }
  }

  lemma LiveMembers(p: Params, w: World, ticks: seq<Tick>, u: nat)
    requires WF(w) && QuietTicks(ticks) && w.instance.Some? && !p.suspend && Reconcile(p, State(w, ticks, [])).ok
    requires u in w.objects && w.objects[u].spec.OrganizationSpec? && Listed(p, w, w.objects[u]) && !Retiring(w.instance.value, w.objects[u])
    ensures var o, m := w.objects[u], MembersAt(w.docs, w.objects[u].Key());
            var found := MembersFor(Stayers(p, w.objects), Order(w), o);
            MembersAt(Reconcile(p, State(w, ticks, [])).s.w.docs, o.Key()) ==
            if found != [] then Some(Items(found)) else if m.None? then Some(Items([])) else m
  {
    CompletePassDeclares(p, State(w, ticks, []), u);
  }

  /** A pass deletes the document of a retiring organization under prune, and leaves any other it does not upsert. */
  lemma RetiredMembers(p: Params, w: World, ticks: seq<Tick>, u: nat)
    requires WF(w) && QuietTicks(ticks) && w.instance.Some? && !p.suspend && Reconcile(p, State(w, ticks, [])).ok
    requires u in w.objects && w.objects[u].spec.OrganizationSpec? && (!Listed(p, w, w.objects[u]) || Retiring(w.instance.value, w.objects[u]))
    ensures var k := w.objects[u].Key();
            MembersAt(Reconcile(p, State(w, ticks, [])).s.w.docs, k) ==
            if Listed(p, w, w.objects[u]) && p.prune then None else MembersAt(w.docs, k)
  {
    CompletePassReachesTarget(p, State(w, ticks, []));
    var x, k := Reconcile(p, State(w, ticks, [])).s.w, w.objects[u].Key();
    if Listed(p, w, w.objects[u]) && p.prune {
      assert Look(x.docs, k) == None;
    } else {
      assert Get(x.docs, k) == Get(w.docs, k);
    }
  }

  lemma StrangeMembers(p: Params, w: World, ticks: seq<Tick>, k: DocKey)
    requires WF(w) && QuietTicks(ticks) && w.instance.Some? && !p.suspend && Reconcile(p, State(w, ticks, [])).ok
    requires forall u | u in w.objects :: w.objects[u].Key() != k
    ensures MembersAt(Reconcile(p, State(w, ticks, [])).s.w.docs, k) == MembersAt(w.docs, k)
  {
    CompletePassReachesTarget(p, State(w, ticks, []));
  }

  lemma PassMakesMembers(p: Params, w: World, ticks: seq<Tick>, k: DocKey)
    requires WF(w) && QuietTicks(ticks) && Reconcile(p, State(w, ticks, [])).ok && k.kind == OrganizationKind
    ensures MembersAt(Reconcile(p, State(w, ticks, [])).s.w.docs, k) == PassMembers(p, w, k, MembersAt(w.docs, k))
  {
    BeginIsQuiet(p, State(w, ticks, []));
    if w.instance.Some? && !p.suspend {
      if u: nat :| u in w.objects && w.objects[u].Key() == k {
        assert forall v: nat | IsListed(p, w, k, v) :: v == u;
        assert IsListed(p, w, k, u) <==> Listed(p, w, w.objects[u]);
        if Listed(p, w, w.objects[u]) && !Retiring(w.instance.value, w.objects[u]) {
          LiveMembers(p, w, ticks, u);
        } else {
          RetiredMembers(p, w, ticks, u);
        }
      } else {
        assert forall v: nat :: !IsListed(p, w, k, v);
        StrangeMembers(p, w, ticks, k);
      }
    }
  }

  /** Over any run of complete passes with anything in between: the members are what the last pass that found any
      found, unless the document was deleted or rewritten since; before one they are what was there, and the empty
      list once a pass inserted the document. */
  lemma {:induction false} MembershipOverPasses(p: Params, w: World, rounds: seq<Round>, k: DocKey)
    requires WF(w) && Completes(p, w, rounds) && k.kind == OrganizationKind
    ensures MembersAt(Run(p, w, rounds).docs, k) == RunMembers(p, w, rounds, k, MembersAt(w.docs, k))
    decreases |rounds|
  {
    if rounds != [] {
      match rounds[0] {
        case Attempt(ticks) =>
          PassMakesMembers(p, w, ticks, k);
          QuietPassIsolates(p, w, ticks);
        case Interval(events) =>
          EventsMakeMembers(p, w, events, k);
          EventsEvolve(p, w, events);
      }
      MembershipOverPasses(p, After(p, w, rounds[0]), rounds[1..], k);
    }
  }
}
