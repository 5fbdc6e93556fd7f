/** Runs of a state machine whose step is a total function: a schedule of actions, one after another. */
module Runs {

  function Run<S, A>(act: (S, A) -> S, s: S, schedule: seq<A>): S
    decreases |schedule|
  {
    if schedule == [] then s else Run(act, act(s, schedule[0]), schedule[1..])
  }

  lemma {:induction false} RunAppend<S, A>(act: (S, A) -> S, s: S, first: seq<A>, second: seq<A>)
    ensures Run(act, s, first + second) == Run(act, Run(act, s, first), second)
    decreases |first|
  {
    if first == [] {
      assert first + second == second;
    } else {
      assert (first + second)[1..] == first[1..] + second;
      RunAppend(act, act(s, first[0]), first[1..], second);
    }
  }

  // A run given state by state.
  lemma {:induction false} RunsThrough<S, A>(act: (S, A) -> S, s: S, schedule: seq<A>, trace: seq<S>)
    requires |trace| == |schedule| + 1 && trace[0] == s
    requires forall i :: 0 <= i < |schedule| ==> trace[i + 1] == act(trace[i], schedule[i])
    ensures Run(act, s, schedule) == trace[|schedule|]
    decreases |schedule|
  {
    if schedule == [] {
    } else {
      RunsThrough(act, trace[1], schedule[1..], trace[1..]);
    }
  }

  // What every step keeps, every run keeps.
  lemma {:induction false} Invariant<S(!new), A(!new)>(act: (S, A) -> S, holds: S -> bool, s: S, schedule: seq<A>)
    requires holds(s)
    requires forall t, a :: holds(t) ==> holds(act(t, a))
    ensures holds(Run(act, s, schedule))
    decreases |schedule|
  {
    if schedule == [] {
    } else {
      Invariant(act, holds, act(s, schedule[0]), schedule[1..]);
    }
  }
}
