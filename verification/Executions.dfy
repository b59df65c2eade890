/** What the protocol models share: optional values and sequences of states linked by steps. */
module Executions {
  datatype Option<+T> = None | Some(value: T)

  /** steps[k] takes states[k] to states[k + 1]. */
  ghost predicate IsTrace<S(!new), T(!new)>(next: (S, T, S) -> bool, states: seq<S>, steps: seq<T>) {
    |states| == |steps| + 1 && forall k :: 0 <= k < |steps| ==> next(states[k], steps[k], states[k + 1])
  }

  lemma TraceExtended<S(!new), T(!new)>(next: (S, T, S) -> bool, states: seq<S>, steps: seq<T>, step: T, s: S)
    requires IsTrace(next, states, steps) && next(states[|steps|], step, s)
    ensures IsTrace(next, states + [s], steps + [step])
  {
  }

  lemma TracePrefixed<S(!new), T(!new)>(next: (S, T, S) -> bool, s: S, step: T, states: seq<S>, steps: seq<T>)
    requires IsTrace(next, states, steps) && next(s, step, states[0])
    ensures IsTrace(next, [s] + states, [step] + steps)
  {
    forall k | 0 <= k < |steps| + 1
      ensures next(([s] + states)[k], ([step] + steps)[k], ([s] + states)[k + 1])
    {
      if k > 0 {
        assert next(states[k - 1], steps[k - 1], states[k - 1 + 1]);
      }
    }
  }
}
