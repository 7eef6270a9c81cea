/**
 Passes leave everything alone that is not theirs: finalizers of other instances, and objects no listing
 reaches. The passes here are not interleaved with anybody else's acts.
 */
module Isolation {
  import opened Wrappers
  import opened Documents
  import opened Selectors
  import opened Resources
  import opened Worlds
  import opened Pass
  import opened NoOrphans
  import opened NoStrands
  import opened Effects
  import opened Quiet
  import opened Target
  import opened Restart
  import opened Finalizers
  import FinalizerNames

  /** A pass, complete or cut short, keeps every other finalizer on every object in order, and an object
      another instance holds survives it unchanged otherwise. */
  lemma PassKeepsOtherFinalizers(p: Params, w: World, ticks: seq<Tick>, f: string)
    requires WF(w) && QuietTicks(ticks) && f != p.finalizer
    ensures var x := Reconcile(p, State(w, ticks, [])).s.w;
            && WF(x) && x.nextUid == w.nextUid
            && (forall u | u in x.objects :: u in w.objects && Same(p, w.objects[u], x.objects[u]))
            && (forall u | u in w.objects && f in w.objects[u].finalizers :: u in x.objects && f in x.objects[u].finalizers)
  {
    BeginIsQuiet(p, State(w, ticks, []));
    var x := Reconcile(p, State(w, ticks, [])).s.w;
    if !p.suspend {
      QuietPass(p, w, ticks);
    }
    forall u | u in w.objects && f in w.objects[u].finalizers
      ensures u in x.objects && f in x.objects[u].finalizers
    {
      WithoutMembers(w.objects[u].finalizers, p.finalizer);
      if u in x.objects {
        WithoutMembers(x.objects[u].finalizers, p.finalizer);
      }
    }
  }

  /** A pass of some instance on the shared objects, with its own database, instance record and secrets. */
  datatype Turn = Turn(p: Params, own: World, ticks: seq<Tick>)

  function TakeTurns(objects: map<nat, Object>, n: nat, turns: seq<Turn>): map<nat, Object>
    decreases |turns|
  {
    if turns == [] then objects
    else
      var t := turns[0];
      TakeTurns(Reconcile(t.p, State(t.own.(objects := objects, nextUid := n), t.ticks, [])).s.w.objects, n, turns[1..])
  }

  ghost predicate WellFormedObjects(objects: map<nat, Object>, n: nat) {
    WF(World(objects, n, [], None, map[], [], map[], {}, 0, map[]))
  }

  /** A shared object survives, with its labels and spec, until every instance that holds it lets go: no
      number of passes of other instances removes it or the finalizer of an instance that has no turn. */
  lemma {:induction false} SharedObjectsSurvive(objects: map<nat, Object>, n: nat, turns: seq<Turn>, f: string, u: nat)
    requires WellFormedObjects(objects, n) && u in objects && f in objects[u].finalizers
    requires forall t | t in turns :: QuietTicks(t.ticks) && t.p.finalizer != f
    ensures var after := TakeTurns(objects, n, turns);
            && u in after && f in after[u].finalizers
            && after[u] == objects[u].(finalizers := after[u].finalizers)
    decreases |turns|
  {
    if turns != [] {
      var t := turns[0];
      var w := t.own.(objects := objects, nextUid := n);
      assert t in turns && WF(w);
      PassKeepsOtherFinalizers(t.p, w, t.ticks, f);
      var x := Reconcile(t.p, State(w, t.ticks, [])).s.w;
      assert WellFormedObjects(x.objects, n);
      SharedObjectsSurvive(x.objects, n, turns[1..], f, u);
    }
  }

  /** Two instances with different names never hold the same finalizer, so the above applies to them. */
  lemma OtherInstanceKeepsBacking(p: Params, q: Params, name: string, namespace: string, name': string, namespace': string, w: World, ticks: seq<Tick>, k: DocKey)
    requires p.finalizer == FinalizerNames.FinalizerName(name, namespace) && q.finalizer == FinalizerNames.FinalizerName(name', namespace')
    requires '.' !in namespace && '.' !in namespace' && (name != name' || namespace != namespace')
    requires WF(w) && QuietTicks(ticks) && Backed(q, w, k)
    ensures Backed(q, Reconcile(p, State(w, ticks, [])).s.w, k)
  {
    if p.finalizer == q.finalizer {
      FinalizerNames.FinalizersAreInjective(name, namespace, name', namespace');
      assert false;
    }
    PassKeepsOtherFinalizers(p, w, ticks, q.finalizer);
    var x := Reconcile(p, State(w, ticks, [])).s.w;
    var u :| u in w.objects && w.objects[u].Key() == k && Carries(q, w.objects[u]);
    assert x.objects[u].Key() == k && Carries(q, x.objects[u]);
  }

  lemma ReachableIsListed(p: Params, w: World, o: Object)
    requires WF(w)
    ensures Listed(p, w, o) <==> Reachable(p, w, o)
  {
    if Nested(o) {
      ListMembers(w, OrganizationKind, p.selector);
      FirstOwnerExists(ListedOrganizations(p, w), o);
      if Reachable(p, w, o) {
        var v :| v in w.objects && Owner(p, w.objects[v], o);
        assert w.objects[v] in ListedOrganizations(p, w);
      }
      if Listed(p, w, o) {
        var org :| org in ListedOrganizations(p, w) && Selects(OwnSelector(org), o.labels);
        var v: nat :| v in w.objects && w.objects[v] == org;
        assert Owner(p, w.objects[v], o);
      }
    }
  }

  /** After an undisturbed pass that completes for an instance being deleted an object still carries its finalizer
      exactly if it did before and no listing reaches it: organizations must not go before the features and
      clients they select. */
  lemma OnlyUnreachableStrand(p: Params, w: World, ticks: seq<Tick>)
    requires WF(w) && QuietTicks(ticks) && !p.suspend && w.instance.Some? && w.instance.value.deleting
    requires Reconcile(p, State(w, ticks, [])).ok
    ensures var x := Reconcile(p, State(w, ticks, [])).s.w;
            forall u | u in x.objects ::
              u in w.objects && (Carries(p, x.objects[u]) <==> Carries(p, w.objects[u]) && !Reachable(p, w, w.objects[u]))
  {
    QuietPass(p, w, ticks);
    FinalizersAfterPass(p, w, ticks);
    forall u | u in w.objects {
      ReachableIsListed(p, w, w.objects[u]);
    }
  }
}
