/**
 Finite runs of a state machine.  Every machine of this project has its own
 states, labels and step relation; what it means to follow the relation from a
 first state, and to go on by one step, is the same for all.
 */
module Runs {

  /** `labels[i]` leads from `states[i]` to `states[i+1]`. */
  datatype Walk<S, L> = Walk(states: seq<S>, labels: seq<L>)

  ghost predicate Follows<S, L>(p: Walk<S, L>, first: S, step: (S, L, S) -> bool) {
    && |p.states| == |p.labels| + 1 && p.states[0] == first
    && forall i | 0 <= i < |p.labels| :: step(p.states[i], p.labels[i], p.states[i+1])
  }

  function End<S, L>(p: Walk<S, L>): S
    requires p.states != []
  {
    p.states[|p.states| - 1]
  }

  function Single<S, L>(first: S): Walk<S, L> {
    Walk([first], [])
  }

  function Extended<S, L>(p: Walk<S, L>, l: L, x: S): Walk<S, L> {
    Walk(p.states + [x], p.labels + [l])
  }

  ghost predicate Longer<S, L>(p: Walk<S, L>, p': Walk<S, L>) {
    p.states <= p'.states && p.labels <= p'.labels
  }

  /** A run without its last step. */
  function Before<S, L>(p: Walk<S, L>): Walk<S, L>
    requires |p.states| == |p.labels| + 1 && p.labels != []
  {
    Walk(p.states[..|p.states| - 1], p.labels[..|p.labels| - 1])
  }

  lemma ExtendedFollows<S, L>(p: Walk<S, L>, first: S, step: (S, L, S) -> bool, l: L, x: S)
    requires Follows(p, first, step) && step(End(p), l, x)
    ensures Follows(Extended(p, l, x), first, step) && End(Extended(p, l, x)) == x && Longer(p, Extended(p, l, x))
  {
    var p' := Extended(p, l, x);
    forall i | 0 <= i < |p'.labels| ensures step(p'.states[i], p'.labels[i], p'.states[i+1]) {
      if i < |p.labels| {
        assert p'.states[i] == p.states[i] && p'.states[i+1] == p.states[i+1] && p'.labels[i] == p.labels[i];
      }
    }
  }

  lemma BeforeFollows<S, L>(p: Walk<S, L>, first: S, step: (S, L, S) -> bool)
    requires Follows(p, first, step) && p.labels != []
    ensures Follows(Before(p), first, step) && End(Before(p)) == p.states[|p.labels| - 1]
    ensures step(End(Before(p)), p.labels[|p.labels| - 1], End(p))
  {
  }

  lemma LongerOn<S, L>(p: Walk<S, L>, p1: Walk<S, L>, p2: Walk<S, L>)
    requires Longer(p, p1) && Longer(p1, p2)
    ensures Longer(p, p2)
  {
  }

  /** From the `n`-th state on every step is one that `good` allows. */
  ghost predicate Since<S, L>(p: Walk<S, L>, n: nat, good: (S, L) -> bool)
    requires |p.states| == |p.labels| + 1
  {
    forall i | n <= i < |p.labels| :: good(p.states[i], p.labels[i])
  }

  lemma SinceBefore<S, L>(p: Walk<S, L>, n: nat, good: (S, L) -> bool)
    requires |p.states| == |p.labels| + 1 && n < |p.labels| && Since(p, n, good)
    ensures Since(Before(p), n, good) && good(End(Before(p)), p.labels[|p.labels| - 1])
  {
    var q := Before(p);
    forall i | n <= i < |q.labels| ensures good(q.states[i], q.labels[i]) {
      assert q.states[i] == p.states[i] && q.labels[i] == p.labels[i];
    }
  }

  /** One allowed step, and then only allowed ones. */
  lemma SinceOn<S, L>(p: Walk<S, L>, p1: Walk<S, L>, p2: Walk<S, L>, l: L, good: (S, L) -> bool)
    requires |p.states| == |p.labels| + 1 && |p1.states| == |p1.labels| + 1 && |p2.states| == |p2.labels| + 1
    requires p1.labels == p.labels + [l] && Longer(p, p1) && Longer(p1, p2)
    requires good(End(p), l) && Since(p2, |p1.labels|, good)
    ensures Longer(p, p2) && Since(p2, |p.labels|, good)
  {
    forall i | |p.labels| <= i < |p2.labels| ensures good(p2.states[i], p2.labels[i]) {
      if i == |p.labels| {
        assert p2.states[i] == p1.states[i] == p.states[i] && p2.labels[i] == p1.labels[i] == l;
      }
    }
  }

  lemma SinceWeaker<S, L>(p: Walk<S, L>, n: nat, good: (S, L) -> bool, better: (S, L) -> bool)
    requires |p.states| == |p.labels| + 1 && Since(p, n, better)
    requires forall s, l | better(s, l) :: good(s, l)
    ensures Since(p, n, good)
  {
  }

  /** How many steps `what` describes. */
  ghost function Count<S, L>(p: Walk<S, L>, what: (S, L) -> bool): nat
    requires |p.states| == |p.labels| + 1
    decreases |p.labels|
  {
    if p.labels == [] then 0
    else
      var q := Before(p);
      Count(q, what) + (if what(End(q), p.labels[|p.labels| - 1]) then 1 else 0)
  }

  /** The first `n` steps of a run. */
  function Upto<S, L>(p: Walk<S, L>, n: nat): Walk<S, L>
    requires |p.states| == |p.labels| + 1 && n <= |p.labels|
  {
    Walk(p.states[..n + 1], p.labels[..n])
  }
}
