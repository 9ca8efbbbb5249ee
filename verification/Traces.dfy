/** Schedules that are given state by state. */
module Traces {
  import opened Parking

  /** The states that a schedule goes through. */
  ghost predicate IsTrace<S(!new), A(!new)>(leads: (S, A, S) -> bool, states: seq<S>, schedule: seq<A>) {
    && |states| == |schedule| + 1
    && forall k {:trigger schedule[k]} :: 0 <= k < |schedule| ==> leads(states[k], schedule[k], states[k + 1])
  }

  /** If every action of a schedule leads from its state to the next one, the run ends in the last
      of the states. */
  lemma {:induction false} Along<S, A>(run: (S, seq<A>) -> Option<S>, states: seq<S>, schedule: seq<A>, k: nat)
    requires |states| == |schedule| + 1 && k <= |schedule|
    requires run(states[|schedule|], []) == Some(states[|schedule|])
    requires forall j :: k <= j < |schedule| ==> run(states[j], schedule[j..]) == run(states[j + 1], schedule[j + 1..])
    ensures run(states[k], schedule[k..]) == Some(states[|schedule|])
    decreases |schedule| - k
  {
    if k < |schedule| {
      Along(run, states, schedule, k + 1);
    } else {
      assert schedule[k..] == [];
    }
  }
}
