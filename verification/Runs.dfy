/** Runs of a state machine given by its initial states and its step relation, and the
    two induction principles every protocol below uses. */
module Runs {

  ghost predicate IsRun<S(!new)>(init: S -> bool, next: (S, S) -> bool, run: seq<S>) {
    && |run| > 0
    && init(run[0])
    && forall i | 0 <= i < |run| - 1 :: next(run[i], run[i + 1])
  }

  ghost predicate Reachable<S(!new)>(init: S -> bool, next: (S, S) -> bool, s: S) {
    exists run :: IsRun(init, next, run) && run[|run| - 1] == s
  }

  lemma InitReachable<S(!new)>(init: S -> bool, next: (S, S) -> bool, s: S)
    requires init(s)
    ensures Reachable(init, next, s)
  {
    assert IsRun(init, next, [s]);
  }

  lemma StepReachable<S(!new)>(init: S -> bool, next: (S, S) -> bool, s: S, t: S)
    requires Reachable(init, next, s) && next(s, t)
    ensures Reachable(init, next, t)
  {
    var run :| IsRun(init, next, run) && run[|run| - 1] == s;
    var longer := run + [t];
    forall i | 0 <= i < |longer| - 1 ensures next(longer[i], longer[i + 1]) {
      if i < |run| - 1 {
        assert next(run[i], run[i + 1]);
      }
    }
    assert IsRun(init, next, longer);
  }

  /** `inv` holds initially and every step keeps it. */
  ghost predicate Inductive<S(!new)>(init: S -> bool, next: (S, S) -> bool, inv: S -> bool) {
    && (forall s | init(s) :: inv(s))
    && (forall s, t | inv(s) && next(s, t) :: inv(t))
  }

  lemma {:induction false} Always<S(!new)>(init: S -> bool, next: (S, S) -> bool, inv: S -> bool, run: seq<S>, k: nat)
    requires Inductive(init, next, inv) && IsRun(init, next, run) && k < |run|
    ensures inv(run[k])
  {
    if k > 0 {
      Always(init, next, inv, run, k - 1);
      assert next(run[k - 1], run[k]);
    }
  }

  lemma ReachableInv<S(!new)>(init: S -> bool, next: (S, S) -> bool, inv: S -> bool, s: S)
    requires Inductive(init, next, inv) && Reachable(init, next, s)
    ensures inv(s)
  {
    var run :| IsRun(init, next, run) && run[|run| - 1] == s;
    Always(init, next, inv, run, |run| - 1);
  }

  /** `rel` relates every invariant state to itself and survives one more step. */
  ghost predicate Lasting<S(!new)>(next: (S, S) -> bool, inv: S -> bool, rel: (S, S) -> bool) {
    && (forall s | inv(s) :: rel(s, s))
    && (forall s, t, u | inv(t) && rel(s, t) && next(t, u) :: rel(s, u))
  }

  lemma {:induction false} Onward<S(!new)>(init: S -> bool, next: (S, S) -> bool, inv: S -> bool,
                                           rel: (S, S) -> bool, run: seq<S>, j: nat, k: nat)
    requires Inductive(init, next, inv) && Lasting(next, inv, rel)
    requires IsRun(init, next, run) && j <= k < |run|
    ensures rel(run[j], run[k])
    decreases k - j
  {
    if j == k {
      Always(init, next, inv, run, j);
    } else {
      Onward(init, next, inv, rel, run, j, k - 1);
      Always(init, next, inv, run, k - 1);
      assert next(run[k - 1], run[k]);
    }
  }

  /** The image of a run under a map that sends initial states to initial states and
      steps to steps is a run. */
  lemma MapRun<S(!new), T(!new)>(init: S -> bool, next: (S, S) -> bool, inv: S -> bool, run: seq<S>,
                                 f: S -> T, init': T -> bool, next': (T, T) -> bool, image: seq<T>)
    requires Inductive(init, next, inv) && IsRun(init, next, run)
    requires forall s | init(s) :: init'(f(s))
    requires forall s, t | inv(s) && next(s, t) :: next'(f(s), f(t))
    requires |image| == |run| && forall i | 0 <= i < |run| :: image[i] == f(run[i])
    ensures IsRun(init', next', image)
  {
    forall i | 0 <= i < |image| - 1 ensures next'(image[i], image[i + 1]) {
      Always(init, next, inv, run, i);
      assert next(run[i], run[i + 1]);
    }
  }

  // ----- Tables whose rows carry a history ----------------------------------------------------

  /** Row i and history i agree, for every i. */
  ghost predicate Tracked<R, F>(ok: (R, F) -> bool, rows: seq<R>, flows: seq<F>)
    requires |rows| == |flows|
  {
    rows == [] ||
    var n := |rows| - 1;
    Tracked(ok, rows[..n], flows[..n]) && ok(rows[n], flows[n])
  }

  lemma {:induction false} TrackedAt<R, F>(ok: (R, F) -> bool, rows: seq<R>, flows: seq<F>, i: nat)
    requires |rows| == |flows| && Tracked(ok, rows, flows) && i < |rows|
    ensures ok(rows[i], flows[i])
  {
    var n := |rows| - 1;
    if i < n {
      TrackedAt(ok, rows[..n], flows[..n], i);
    }
  }

  lemma {:induction false} TrackedUpdate<R, F>(ok: (R, F) -> bool, rows: seq<R>, flows: seq<F>, i: nat, r: R, f: F)
    requires |rows| == |flows| && Tracked(ok, rows, flows) && i < |rows| && ok(r, f)
    ensures Tracked(ok, rows[i := r], flows[i := f])
  {
    var n := |rows| - 1;
    if i < n {
      TrackedUpdate(ok, rows[..n], flows[..n], i, r, f);
      assert rows[i := r][..n] == rows[..n][i := r] && flows[i := f][..n] == flows[..n][i := f];
    } else {
      assert rows[i := r][..n] == rows[..n] && flows[i := f][..n] == flows[..n];
    }
  }

  lemma TrackedAppend<R, F>(ok: (R, F) -> bool, rows: seq<R>, flows: seq<F>, r: R, f: F)
    requires |rows| == |flows| && Tracked(ok, rows, flows) && ok(r, f)
    ensures Tracked(ok, rows + [r], flows + [f])
  {
    assert (rows + [r])[..|rows|] == rows && (flows + [f])[..|rows|] == flows;
  }
}
