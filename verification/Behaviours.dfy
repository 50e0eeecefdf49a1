/** Runs of a transition system, and the rule that lifts a step invariant to whole runs. */
module Behaviours {

  /** The `i`th state of `run` follows from the one before it. */
  ghost predicate StepAt<S>(next: (S, S) -> bool, run: seq<S>, i: int) {
    0 < i < |run| ==> next(run[i - 1], run[i])
  }

  /** `run` starts in an initial state and every adjacent pair is one step. */
  ghost predicate IsRun<S(!new)>(init: S -> bool, next: (S, S) -> bool, run: seq<S>) {
    |run| > 0 && init(run[0]) && forall i :: StepAt(next, run, i)
  }

  /** What initial states satisfy and every step keeps holds in every state of every run. */
  lemma {:induction false} Invariance<S(!new)>(init: S -> bool, next: (S, S) -> bool, inv: S -> bool, run: seq<S>)
    requires IsRun(init, next, run)
    requires forall s :: init(s) ==> inv(s)
    requires forall s, t :: inv(s) && next(s, t) ==> inv(t)
    ensures forall i :: 0 <= i < |run| ==> inv(run[i])
  {
    if |run| > 1 {
      var prefix := run[..|run| - 1];
      forall i ensures StepAt(next, prefix, i) {
        assert StepAt(next, run, i);
      }
      Invariance(init, next, inv, prefix);
      assert StepAt(next, run, |run| - 1);
      assert inv(prefix[|prefix| - 1]);
      forall i | 0 <= i < |run| ensures inv(run[i]) {
        if i < |prefix| { assert run[i] == prefix[i]; }
      }
    }
  }

  /** Some number of steps, perhaps none, leads from `s` to `t`. */
  ghost predicate Reaches<S(!new)>(next: (S, S) -> bool, s: S, t: S) {
    exists path: seq<S> :: IsPath(next, path) && path[0] == s && path[|path| - 1] == t
  }

  ghost predicate IsPath<S(!new)>(next: (S, S) -> bool, path: seq<S>) {
    |path| > 0 && forall i :: StepAt(next, path, i)
  }

  lemma ReachesSelf<S(!new)>(next: (S, S) -> bool, s: S)
    ensures Reaches(next, s, s)
  {
    assert IsPath(next, [s]);
  }

  lemma ReachesNext<S(!new)>(next: (S, S) -> bool, s: S, t: S, u: S)
    requires Reaches(next, s, t) && next(t, u)
    ensures Reaches(next, s, u)
  {
    var path :| IsPath(next, path) && path[0] == s && path[|path| - 1] == t;
    var longer := path + [u];
    forall i ensures StepAt(next, longer, i) {
      assert StepAt(next, path, i);
    }
    assert IsPath(next, longer);
  }

  lemma ReachesThrough<S(!new)>(next: (S, S) -> bool, s: S, t: S, u: S)
    requires Reaches(next, s, t) && Reaches(next, t, u)
    ensures Reaches(next, s, u)
  {
    var first :| IsPath(next, first) && first[0] == s && first[|first| - 1] == t;
    var second :| IsPath(next, second) && second[0] == t && second[|second| - 1] == u;
    var whole := first + second[1..];
    forall i ensures StepAt(next, whole, i) {
      assert StepAt(next, first, i);
      assert StepAt(next, second, i - |first| + 1);
    }
    assert IsPath(next, whole);
  }
}
