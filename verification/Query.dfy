/** SELECT ... WHERE ... ORDER BY ... LIMIT over a table stored as a sequence; the
    primary key of a row is its index. */
module Query {
  import opened Common

  /** An ORDER BY whose last key is the primary key: strict and total on ids. */
  ghost predicate StrictTotal(before: (nat, nat) -> bool) {
    && (forall i: nat :: !before(i, i))
    && (forall i: nat, j: nat :: i != j ==> before(i, j) || before(j, i))
    && (forall i: nat, j: nat, k: nat :: before(i, j) && before(j, k) ==> before(i, k))
  }

  /** One nullable sort key, ascending; PostgreSQL puts NULL last unless told otherwise. */
  predicate Earlier(a: Option<Time>, b: Option<Time>, nullsFirst: bool) {
    if a.None? then b.Some? && nullsFirst
    else if b.None? then !nullsFirst
    else a.value < b.value
  }

  predicate Precedes(rank: nat -> int, key: nat -> Option<Time>, nullsFirst: bool, i: nat, j: nat) {
    || rank(i) < rank(j)
    || (rank(i) == rank(j) && Earlier(key(i), key(j), nullsFirst))
    || (rank(i) == rank(j) && key(i) == key(j) && i < j)
  }

  /** ORDER BY rank ASC, key ASC [NULLS FIRST], id ASC. */
  function Order(rank: nat -> int, key: nat -> Option<Time>, nullsFirst: bool): (before: (nat, nat) -> bool)
    ensures StrictTotal(before)
    ensures forall i: nat, j: nat :: before(i, j) == Precedes(rank, key, nullsFirst, i, j)
  {
    var before := (i: nat, j: nat) => Precedes(rank, key, nullsFirst, i, j);
    assert forall i: nat, j: nat :: before(i, j) == Precedes(rank, key, nullsFirst, i, j);
    before
  }

  ghost predicate Sorted(s: seq<nat>, before: (nat, nat) -> bool) {
    forall i, j | 0 <= i < j < |s| :: before(s[i], s[j])
  }

  /** The ids below n that satisfy the WHERE clause, ascending. */
  function Where(n: nat, keep: nat -> bool): (s: seq<nat>)
    ensures forall x: nat :: x in s <==> x < n && keep(x)
    ensures Ascending(s)
  {
    if n == 0 then []
    else
      var front := Where(n - 1, keep);
      assert forall i | 0 <= i < |front| :: front[i] in front;
      if keep(n - 1) then front + [n - 1] else front
  }

  ghost function Matches(n: nat, keep: nat -> bool): (r: set<nat>) {
    set i: nat | i < n && keep(i)
  }

  lemma MatchesNext(n: nat, keep: nat -> bool)
    ensures Matches(n + 1, keep) == Matches(n, keep) + if keep(n) then {n} else {}
    ensures n !in Matches(n, keep)
  {
  }

  /** How many rows match. */
  lemma {:induction false} WhereCount(n: nat, keep: nat -> bool)
    ensures |Where(n, keep)| == |Matches(n, keep)|
  {
    if n > 0 {
      WhereCount(n - 1, keep);
      MatchesNext(n - 1, keep);
    }
  }

  function Insert(x: nat, s: seq<nat>, before: (nat, nat) -> bool): (r: seq<nat>)
    ensures multiset(r) == multiset(s) + multiset{x}
  {
    if s == [] then [x]
    else if before(x, s[0]) then [x] + s
    else
      assert s == [s[0]] + s[1..];
      [s[0]] + Insert(x, s[1..], before)
  }

  function OrderBy(s: seq<nat>, before: (nat, nat) -> bool): (r: seq<nat>)
    ensures multiset(r) == multiset(s)
  {
    if s == [] then []
    else
      assert s == [s[0]] + s[1..];
      Insert(s[0], OrderBy(s[1..], before), before)
  }

  function Take<T>(s: seq<T>, limit: nat): (r: seq<T>)
    ensures r <= s && |r| == if |s| <= limit then |s| else limit
  {
    if |s| <= limit then s else s[..limit]
  }

  lemma SameElements(r: seq<nat>, s: seq<nat>)
    requires multiset(r) == multiset(s)
    ensures |r| == |s|
    ensures forall x :: x in r <==> x in s
  {
    assert |multiset(r)| == |r| && |multiset(s)| == |s|;
    assert forall x :: x in r <==> x in multiset(r);
    assert forall x :: x in s <==> x in multiset(s);
  }

  lemma {:induction false} InsertSorted(x: nat, s: seq<nat>, before: (nat, nat) -> bool)
    requires StrictTotal(before) && Sorted(s, before) && x !in s
    ensures Sorted(Insert(x, s, before), before)
  {
    if s != [] && !before(x, s[0]) {
      var rest := Insert(x, s[1..], before);
      InsertSorted(x, s[1..], before);
      assert before(s[0], x);
      forall k | 0 <= k < |rest| ensures before(s[0], rest[k]) {
        assert rest[k] in multiset(rest);
        assert rest[k] == x || rest[k] in s[1..];
      }
    }
  }

  /** OrderBy really sorts a set of distinct ids. */
  lemma {:induction false} OrderBySorted(s: seq<nat>, before: (nat, nat) -> bool)
    requires StrictTotal(before) && Distinct(s)
    ensures Sorted(OrderBy(s, before), before)
    ensures Distinct(OrderBy(s, before))
  {
    if s != [] {
      var rest := OrderBy(s[1..], before);
      OrderBySorted(s[1..], before);
      SameElements(rest, s[1..]);
      InsertSorted(s[0], rest, before);
      assert OrderBy(s, before) == Insert(s[0], rest, before);
    }
  }

  lemma SameHead(r: seq<nat>, s: seq<nat>, before: (nat, nat) -> bool)
    requires StrictTotal(before) && Sorted(r, before) && Sorted(s, before)
    requires multiset(r) == multiset(s) && r != []
    ensures s != [] && r[0] == s[0]
  {
    SameElements(r, s);
    var x, y := r[0], s[0];
    assert x in s && y in r;
    var i :| 0 <= i < |s| && s[i] == x;
    var j :| 0 <= j < |r| && r[j] == y;
    assert i > 0 ==> before(y, x);
    assert j > 0 ==> before(x, y);
  }

  lemma SameTail(r: seq<nat>, s: seq<nat>)
    requires multiset(r) == multiset(s) && r != [] && s != [] && r[0] == s[0]
    ensures multiset(r[1..]) == multiset(s[1..])
  {
    assert r == [r[0]] + r[1..] && s == [s[0]] + s[1..];
    assert multiset(r[1..]) == multiset(r) - multiset{r[0]};
  }

  /** A set of ids has only one sorted listing. */
  lemma {:induction false} SortedUnique(r: seq<nat>, s: seq<nat>, before: (nat, nat) -> bool)
    requires StrictTotal(before) && Sorted(r, before) && Sorted(s, before)
    requires multiset(r) == multiset(s)
    ensures r == s
  {
    SameElements(r, s);
    if r != [] {
      SameHead(r, s, before);
      SameTail(r, s);
      SortedUnique(r[1..], s[1..], before);
      assert r == [r[0]] + r[1..] && s == [s[0]] + s[1..];
    }
  }

  /** What a bounded, ordered SELECT returns: the first `limit` matching ids, none left
      out that precedes one returned. */
  lemma SelectSpec(n: nat, keep: nat -> bool, before: (nat, nat) -> bool, limit: nat)
    requires StrictTotal(before)
    ensures var batch := Take(OrderBy(Where(n, keep), before), limit);
      && Distinct(batch)
      && |batch| <= limit
      && (forall x | x in batch :: x < n && keep(x))
      && (|batch| < limit ==> forall x: nat | x < n && keep(x) :: x in batch)
      && (forall x: nat, y: nat | x in batch && y < n && keep(y) && y !in batch :: before(x, y))
      && Sorted(batch, before)
  {
    var all := OrderBy(Where(n, keep), before);
    OrderBySorted(Where(n, keep), before);
    SameElements(all, Where(n, keep));
    var batch := Take(all, limit);
    forall x | x in batch ensures x < n && keep(x) {
      assert x in all;
    }
    forall x: nat, y: nat | x in batch && y < n && keep(y) && y !in batch ensures before(x, y) {
      assert y in all;
      var i :| 0 <= i < |batch| && batch[i] == x;
      var j :| 0 <= j < |all| && all[j] == y;
      assert all[i] == x && forall k | 0 <= k < |batch| :: all[k] == batch[k] && batch[k] in batch;
      assert i < j;
    }
  }

  /** ... LIMIT 1: the least matching id, or none when nothing matches. */
  function First(n: nat, keep: nat -> bool, before: (nat, nat) -> bool): (r: Option<nat>) {
    var ids := Take(OrderBy(Where(n, keep), before), 1);
    if ids == [] then None else Some(ids[0])
  }

  lemma FirstSpec(n: nat, keep: nat -> bool, before: (nat, nat) -> bool)
    requires StrictTotal(before)
    ensures First(n, keep, before).None? ==> forall x: nat | x < n :: !keep(x)
    ensures First(n, keep, before).Some? ==>
              var y := First(n, keep, before).value;
              y < n && keep(y) && forall x: nat | x < n && keep(x) :: x == y || before(y, x)
  {
    SelectSpec(n, keep, before, 1);
    var ids := Take(OrderBy(Where(n, keep), before), 1);
    if ids != [] {
      assert ids[0] in ids;
    }
  }

  /** The table after each listed row was replaced by its image under f. */
  ghost function UpdateAll<T(!new)>(rows: seq<T>, ids: seq<nat>, f: (nat, T) -> T): (r: seq<T>)
    ensures |r| == |rows|
    ensures forall i | 0 <= i < |rows| :: r[i] == if i in ids then f(i, rows[i]) else rows[i]
  {
    if ids == [] then rows
    else
      var n := |ids| - 1;
      assert ids == ids[..n] + [ids[n]];
      var front := UpdateAll(rows, ids[..n], f);
      if ids[n] < |rows| then front[ids[n] := f(ids[n], rows[ids[n]])] else front
  }

  /** A loop over distinct ids finds each row as the query saw it. */
  lemma UpdateNext<T(!new)>(rows: seq<T>, ids: seq<nat>, k: nat, f: (nat, T) -> T)
    requires Distinct(ids) && k < |ids| && ids[k] < |rows|
    ensures UpdateAll(rows, ids[..k], f)[ids[k]] == rows[ids[k]]
    ensures UpdateAll(rows, ids[..k + 1], f) == UpdateAll(rows, ids[..k], f)[ids[k] := f(ids[k], rows[ids[k]])]
  {
    var upto := ids[..k + 1];
    assert |upto| == k + 1 && upto[k] == ids[k];
    assert upto[..k] == ids[..k];
    assert ids[k] !in ids[..k];
  }
}
