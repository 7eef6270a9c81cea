/**
 What a pass does that has nothing to do: the instance is suspended, or gone. It reads the instance and stops, so a
 run of such passes is the acts of everybody else and nothing more.
 */
module Suspension {
  import opened Wrappers
  import opened Worlds
  import opened Pass

  /** The acts a pass that stops after its first call still sees. */
  function SeenBy(round: Round): seq<Event> {
    match round
    case Attempt(ticks) => if ticks == [] then [] else ticks[0].events
    case Interval(events) => events
  }

  function SeenIn(rounds: seq<Round>): seq<Event> {
    if rounds == [] then [] else SeenBy(rounds[0]) + SeenIn(rounds[1..])
  }

  /** On every schedule a suspended pass takes one call at most and changes nothing of its own: no object, no
      finalizer, the instance's least of all, no document, no payload, no catalog entry. */
  lemma SuspendedPass(p: Params, s: State)
    requires p.suspend
    ensures var r := Reconcile(p, s).s;
            && r.w == AppliedAll(p, s.w, SeenBy(Attempt(s.ticks)))
            && r.catalog == s.catalog
            && r.ticks == if s.ticks == [] then [] else s.ticks[1..]
    ensures Reconcile(p, s).ok <==> s.ticks != [] && !s.ticks[0].fault
  {
  }

  /** So does a pass that finds no instance. */
  lemma OrphanedPass(p: Params, s: State)
    requires AppliedAll(p, s.w, SeenBy(Attempt(s.ticks))).instance.None?
    ensures var r := Reconcile(p, s).s;
            && r.w == AppliedAll(p, s.w, SeenBy(Attempt(s.ticks)))
            && r.catalog == s.catalog
            && r.ticks == if s.ticks == [] then [] else s.ticks[1..]
  {
  }

  lemma {:induction false} AppliedInTurn(p: Params, w: World, a: seq<Event>, b: seq<Event>)
    ensures AppliedAll(p, w, a + b) == AppliedAll(p, AppliedAll(p, w, a), b)
    decreases |a|
  {
    if a == [] {
      assert a + b == b;
    } else {
      assert (a + b)[1..] == a[1..] + b;
      AppliedInTurn(p, Applied(p, w, a[0]), a[1..], b);
    }
  }

  /** A run of a suspended instance is the run of the others' acts alone. */
  lemma {:induction false} SuspendedRun(p: Params, w: World, rounds: seq<Round>)
    requires p.suspend
    ensures Run(p, w, rounds) == AppliedAll(p, w, SeenIn(rounds))
    decreases |rounds|
  {
    if rounds != [] {
      match rounds[0] {
        case Attempt(ticks) => SuspendedPass(p, State(w, ticks, []));
        case Interval(events) =>
      }
      SuspendedRun(p, After(p, w, rounds[0]), rounds[1..]);
      AppliedInTurn(p, w, SeenBy(rounds[0]), SeenIn(rounds[1..]));
    }
  }
}
