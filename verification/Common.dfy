/** Shared vocabulary of the model: optional values, instants and nondecreasing helpers. */
module Common {

  /** A nullable column or an optional parameter. */
  datatype Option<+T> = None | Some(value: T)

  /** Instants and durations, in seconds. */
  type Time = real

  function Min(a: int, b: int): (m: int) {
    if a <= b then a else b
  }

  function Max(a: int, b: int): (m: int) {
    if a >= b then a else b
  }

  /** Pairwise distinct elements. */
  ghost predicate Distinct<T>(s: seq<T>) {
    forall i, j | 0 <= i < j < |s| :: s[i] != s[j]
  }

  /** Strictly ascending numbers. */
  ghost predicate Ascending(s: seq<nat>) {
    forall i, j | 0 <= i < j < |s| :: s[i] < s[j]
  }

  /** Distinct positive numbers bounded by n are at most n many. */
  lemma {:induction false} DistinctBounded(s: seq<nat>, n: nat)
    requires Distinct(s)
    requires forall i | 0 <= i < |s| :: 1 <= s[i] <= n
    ensures |s| <= n
  {
    if s == [] {
      return;
    }
    assert 1 <= s[0] <= n;
    if k :| 0 <= k < |s| && s[k] == n {
      DistinctBounded(s[..k] + s[k + 1..], n - 1);
    } else {
      DistinctBounded(s, n - 1);
    }
  }
}
