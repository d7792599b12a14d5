/** Finite runs of a state machine, and the two ways of proving something of all of them. */
module Runs {

  /** A run starts in an initial state and makes only allowed steps. */
  ghost predicate IsRun<S(!new)>(init: S -> bool, next: (S, S) -> bool, run: seq<S>) {
    && |run| > 0
    && init(run[0])
    && forall i :: 0 <= i < |run| - 1 ==> next(run[i], run[i + 1])
  }

  /** What holds initially and is kept by every step holds in every state of every run. */
  lemma {:induction false} Invariance<S(!new)>(
      init: S -> bool, next: (S, S) -> bool, inv: S -> bool, run: seq<S>)
    requires IsRun(init, next, run)
    requires forall s :: init(s) ==> inv(s)
    requires forall s, t :: inv(s) && next(s, t) ==> inv(t)
    ensures forall i :: 0 <= i < |run| ==> inv(run[i])
  {
    var k := 0;
    while k + 1 < |run|
      invariant k < |run|
      invariant forall i :: 0 <= i <= k ==> inv(run[i])
    {
      assert next(run[k], run[k + 1]);
      k := k + 1;
    }
  }

  /** A preorder that every step from an invariant state respects relates any earlier
      state of a run to any later one. */
  lemma {:induction false} Progress<S(!new)>(
      init: S -> bool, next: (S, S) -> bool, inv: S -> bool, le: (S, S) -> bool,
      run: seq<S>, i: nat, j: nat)
    requires IsRun(init, next, run)
    requires forall s :: init(s) ==> inv(s)
    requires forall s, t :: inv(s) && next(s, t) ==> inv(t)
    requires forall s :: le(s, s)
    requires forall s, t, u :: le(s, t) && le(t, u) ==> le(s, u)
    requires forall s, t :: inv(s) && next(s, t) ==> le(s, t)
    requires i <= j < |run|
    ensures le(run[i], run[j])
  {
    Invariance(init, next, inv, run);
    var k := i;
    while k < j
      invariant i <= k <= j
      invariant le(run[i], run[k])
    {
      assert next(run[k], run[k + 1]);
      assert le(run[k], run[k + 1]);
      k := k + 1;
    }
  }

  lemma Extend<S(!new)>(init: S -> bool, next: (S, S) -> bool, run: seq<S>, t: S)
    requires IsRun(init, next, run) && next(run[|run| - 1], t)
    ensures IsRun(init, next, run + [t])
  {
  }
}
