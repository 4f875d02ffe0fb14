/** Runs of a labelled transition relation, and what its steps preserve. */
module Runs {
  ghost predicate Follows<S(!new), L(!new)>(next: (S, L, S) -> bool, states: seq<S>, labels: seq<L>) {
    |states| == |labels| + 1 && forall i :: 0 <= i < |labels| ==> next(states[i], labels[i], states[i + 1])
  }

  ghost predicate Throughout<S(!new)>(states: seq<S>, first: nat, last: nat, up: S -> bool) {
    first <= last < |states| && forall i :: first <= i <= last ==> up(states[i])
  }

  /** What every step keeps as long as `up` holds is kept over any stretch of a run on which `up` holds. */
  lemma {:induction false} Preserved<S(!new), L(!new)>(
    next: (S, L, S) -> bool, states: seq<S>, labels: seq<L>, up: S -> bool, inv: S -> bool, first: nat, last: nat)
    requires Follows(next, states, labels) && Throughout(states, first, last, up)
    requires forall s, l, t :: inv(s) && up(s) && next(s, l, t) && up(t) ==> inv(t)
    requires inv(states[first])
    ensures inv(states[last])
    decreases last
  {
    if first == last {
    } else {
      Preserved(next, states, labels, up, inv, first, last - 1);
      assert next(states[last - 1], labels[last - 1], states[last - 1 + 1]);
    }
  }
}
