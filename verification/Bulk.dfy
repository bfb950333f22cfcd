/** Administrator bulk requeue of delivery-failed payments (app/services/bulk_resend.py):
    the selection, its preview, and several administrators running it at once. */
module Bulk {
  import opened Common
  import opened Rows
  import opened Delivery
  import opened Query

  const PREVIEW_ORDER_LIMIT: nat := 20

  datatype Preview = Preview(count: nat, totalAmount: int, orderIds: seq<string>)

  datatype BulkResult = BulkResult(
    selected: nat, requeued: nat, skipped: nat, totalAmount: int, orderIds: seq<string>)

  function EligibleIn(rows: seq<Payment>): nat -> bool {
    (i: nat) => i < |rows| && BulkEligible(rows[i])
  }

  function ByReviewTime(rows: seq<Payment>): (nat, nat) -> bool {
    Order((i: nat) => 0, (i: nat) => if i < |rows| then rows[i].manualReviewAt else None, true)
  }

  /** ORDER BY manual_review_at ASC NULLS FIRST, id ASC over the eligible rows. */
  function Eligible(rows: seq<Payment>): (ids: seq<nat>) {
    OrderBy(Where(|rows|, EligibleIn(rows)), ByReviewTime(rows))
  }

  function AmountOf(rows: seq<Payment>, id: nat): (t: int) {
    if id < |rows| then rows[id].money.amount else 0
  }

  /** The running total of original invoice amounts. */
  function TotalAmount(rows: seq<Payment>, ids: seq<nat>): (t: int) {
    if ids == [] then 0
    else TotalAmount(rows, ids[..|ids| - 1]) + AmountOf(rows, ids[|ids| - 1])
  }

  lemma {:induction false} TotalConcat(rows: seq<Payment>, r: seq<nat>, s: seq<nat>)
    ensures TotalAmount(rows, r + s) == TotalAmount(rows, r) + TotalAmount(rows, s)
  {
    if s == [] {
      assert r + s == r;
    } else {
      var n := |s| - 1;
      assert (r + s)[..|r + s| - 1] == r + s[..n];
      TotalConcat(rows, r, s[..n]);
    }
  }

  lemma RemoveAt(s: seq<nat>, j: nat)
    requires j < |s|
    ensures multiset(s) == multiset(s[..j] + s[j + 1..]) + multiset{s[j]}
  {
    assert s == s[..j] + [s[j]] + s[j + 1..];
  }

  lemma TotalWithout(rows: seq<Payment>, s: seq<nat>, j: nat)
    requires j < |s|
    ensures TotalAmount(rows, s) == TotalAmount(rows, s[..j] + s[j + 1..]) + AmountOf(rows, s[j])
  {
    assert s == s[..j + 1] + s[j + 1..];
    assert s[..j + 1][..j] == s[..j];
    TotalConcat(rows, s[..j + 1], s[j + 1..]);
    TotalConcat(rows, s[..j], s[j + 1..]);
  }

  lemma SameRest(r: seq<nat>, s: seq<nat>, j: nat)
    requires multiset(r) == multiset(s) && r != [] && j < |s| && s[j] == r[|r| - 1]
    ensures multiset(r[..|r| - 1]) == multiset(s[..j] + s[j + 1..])
  {
    var n := |r| - 1;
    RemoveAt(s, j);
    assert r == r[..n] + [r[n]];
    assert multiset(r[..n]) == multiset(r) - multiset{r[n]};
  }

  /** The total depends only on which rows are listed, not on their order. */
  lemma {:induction false} TotalPermutation(rows: seq<Payment>, r: seq<nat>, s: seq<nat>)
    requires multiset(r) == multiset(s)
    ensures TotalAmount(rows, r) == TotalAmount(rows, s)
  {
    SameElements(r, s);
    if r != [] {
      var n := |r| - 1;
      assert r[n] in r;
      var j :| 0 <= j < |s| && s[j] == r[n];
      SameRest(r, s, j);
      TotalPermutation(rows, r[..n], s[..j] + s[j + 1..]);
      TotalWithout(rows, s, j);
    }
  }

  function OrderIds(rows: seq<Payment>, ids: seq<nat>): (s: seq<string>)
    requires forall k | 0 <= k < |ids| :: ids[k] < |rows|
    ensures |s| == |ids|
  {
    seq(|ids|, k requires 0 <= k < |ids| => rows[ids[k]].orderId)
  }

  /** The order ids a running report keeps: the first PREVIEW_ORDER_LIMIT ones. */
  function Reported(rows: seq<Payment>, ids: seq<nat>): (s: seq<string>)
    requires forall k | 0 <= k < |ids| :: ids[k] < |rows|
  {
    if ids == [] then []
    else
      var front := Reported(rows, ids[..|ids| - 1]);
      if |front| < PREVIEW_ORDER_LIMIT then front + [rows[ids[|ids| - 1]].orderId] else front
  }

  lemma {:induction false} ReportedIsPreviewed(rows: seq<Payment>, ids: seq<nat>)
    requires forall k | 0 <= k < |ids| :: ids[k] < |rows|
    ensures Reported(rows, ids) == OrderIds(rows, Take(ids, PREVIEW_ORDER_LIMIT))
  {
    if ids != [] {
      var front := ids[..|ids| - 1];
      ReportedIsPreviewed(rows, front);
      if |front| < PREVIEW_ORDER_LIMIT {
        assert OrderIds(rows, ids) == OrderIds(rows, front) + [rows[ids[|front|]].orderId];
      } else {
        assert Take(ids, PREVIEW_ORDER_LIMIT) == Take(front, PREVIEW_ORDER_LIMIT);
      }
    }
  }

  /** First in review order: longest in review, an unknown instant before all others, then by id. */
  ghost predicate ReviewedEarlier(rows: seq<Payment>, i: nat, j: nat)
    requires i < |rows| && j < |rows|
  {
    var a, b := rows[i].manualReviewAt, rows[j].manualReviewAt;
    || (a.None? && b.Some?)
    || (a.Some? && b.Some? && a.value < b.value)
    || (a == b && i < j)
  }

  /** Verified, in review for running out of attempts or for an ambiguous answer, and the review
      not closed. */
  ghost predicate Requeueable(p: Payment) {
    && p.status == ManualReview && p.verifiedAt.Some? && p.reviewResolvedAt.None? && p.claimedAt.None?
    && (p.reason == Some(RetryLimitReached) || p.reason == Some(TimeoutAmbiguous))
  }

  lemma SortedByReview(rows: seq<Payment>, ids: seq<nat>)
    requires Sorted(ids, ByReviewTime(rows)) && forall k | 0 <= k < |ids| :: ids[k] < |rows|
    ensures forall a, b | 0 <= a < b < |ids| :: ReviewedEarlier(rows, ids[a], ids[b])
  {
    forall a, b | 0 <= a < b < |ids| ensures ReviewedEarlier(rows, ids[a], ids[b]) {
      assert ByReviewTime(rows)(ids[a], ids[b]);
    }
  }

  /** The query lists each requeueable payment once, the longest in review first. */
  lemma ListedOnceInOrder(rows: seq<Payment>)
    ensures forall i: nat :: i in Eligible(rows) <==> i < |rows| && Requeueable(rows[i])
    ensures Distinct(Eligible(rows))
    ensures forall a, b | 0 <= a < b < |Eligible(rows)| ::
              Eligible(rows)[a] < |rows| && Eligible(rows)[b] < |rows| && ReviewedEarlier(rows, Eligible(rows)[a], Eligible(rows)[b])
  {
    EligibleSpec(rows);
    SortedByReview(rows, Eligible(rows));
  }

  lemma EligibleSpec(rows: seq<Payment>)
    ensures Distinct(Eligible(rows)) && Sorted(Eligible(rows), ByReviewTime(rows))
    ensures forall i: nat :: i in Eligible(rows) <==> i < |rows| && BulkEligible(rows[i])
    ensures forall k | 0 <= k < |Eligible(rows)| :: Eligible(rows)[k] < |rows|
  {
    OrderBySorted(Where(|rows|, EligibleIn(rows)), ByReviewTime(rows));
    SameElements(Eligible(rows), Where(|rows|, EligibleIn(rows)));
    assert forall k | 0 <= k < |Eligible(rows)| :: Eligible(rows)[k] in Eligible(rows);
  }

  /** The sum of the original invoice amounts, listed one by one. */
  ghost predicate Adds(rows: seq<Payment>, ids: seq<nat>, sums: seq<int>) {
    && |sums| == |ids| + 1 && sums[0] == 0
    && forall k | 0 <= k < |ids| :: ids[k] < |rows| && sums[k + 1] == sums[k] + rows[ids[k]].money.amount
  }

  lemma {:induction false} TotalAdds(rows: seq<Payment>, ids: seq<nat>, sums: seq<int>)
    requires Adds(rows, ids, sums)
    ensures TotalAmount(rows, ids) == sums[|ids|]
  {
    if ids != [] {
      TotalAdds(rows, ids[..|ids| - 1], sums[..|ids|]);
    }
  }

  /** The preview: how many payments a requeue would move, their original amounts in all, and
      the order ids of the first twenty. */
  lemma PreviewExactly(rows: seq<Payment>, ids: seq<nat>, sums: seq<int>)
    requires Distinct(ids) && Adds(rows, ids, sums)
    requires forall i: nat :: i in ids <==> i < |rows| && Requeueable(rows[i])
    requires forall a, b | 0 <= a < b < |ids| :: ReviewedEarlier(rows, ids[a], ids[b])
    ensures var p := PreviewBulk(rows);
      && p.count == |ids| && p.totalAmount == sums[|ids|]
      && |p.orderIds| == (if |ids| <= 20 then |ids| else 20)
      && forall k | 0 <= k < |p.orderIds| :: p.orderIds[k] == rows[ids[k]].orderId
  {
    EligibleSpec(rows);
    DistinctSame(ids, Eligible(rows));
    forall a, b | 0 <= a < b < |ids| ensures ByReviewTime(rows)(ids[a], ids[b]) {
      assert ReviewedEarlier(rows, ids[a], ids[b]);
    }
    SortedUnique(ids, Eligible(rows), ByReviewTime(rows));
    TotalAdds(rows, ids, sums);
  }

  /** preview_bulk_resend: reads, changes nothing. */
  function PreviewBulk(rows: seq<Payment>): (p: Preview) {
    EligibleSpec(rows);
    var ids := Eligible(rows);
    Preview(|ids|, TotalAmount(rows, ids), OrderIds(rows, Take(ids, PREVIEW_ORDER_LIMIT)))
  }

  /** The table after the rows `ids` have been requeued. */
  ghost function RequeuedRows(rows: seq<Payment>, ids: seq<nat>, now: Time): (r: seq<Payment>)
    ensures |r| == |rows|
    ensures forall i | 0 <= i < |rows| :: r[i] == if i in ids then Requeued(rows[i], now) else rows[i]
  {
    UpdateAll(rows, ids, (i: nat, p: Payment) => Requeued(p, now))
  }

  /** Back in the queue at once, everything but the delivery columns as it was. */
  ghost predicate BackInQueue(before: seq<Payment>, after: seq<Payment>, i: nat, now: Time)
    requires i < |before| == |after|
  {
    after[i] == before[i].(status := Pending, nextRetryAt := Some(now), claimedAt := None, claimedBy := None)
  }

  lemma RequeuedColumns(rows: seq<Payment>, ids: seq<nat>, now: Time)
    ensures forall i | 0 <= i < |rows| ::
              if i in ids then BackInQueue(rows, RequeuedRows(rows, ids, now), i, now)
              else RequeuedRows(rows, ids, now)[i] == rows[i]
  {
  }

  /** The table once every requeueable payment was requeued. */
  lemma AllRequeued(rows: seq<Payment>, now: Time)
    ensures ghost var after := RequeuedRows(rows, Eligible(rows), now);
            forall i | 0 <= i < |rows| ::
              !Requeueable(after[i]) && if Requeueable(rows[i]) then BackInQueue(rows, after, i, now) else after[i] == rows[i]
  {
    ListedOnceInOrder(rows);
    RequeuedColumns(rows, Eligible(rows), now);
  }

  /** After the first k eligible rows were requeued, the query returns exactly the rest. */
  lemma RemainingEligible(rows: seq<Payment>, k: nat, now: Time)
    requires k <= |Eligible(rows)|
    ensures Eligible(RequeuedRows(rows, Eligible(rows)[..k], now)) == Eligible(rows)[k..]
  {
    var all, done := Eligible(rows), Eligible(rows)[..k];
    var later := RequeuedRows(rows, done, now);
    var rest := Eligible(later);
    EligibleSpec(rows);
    EligibleSpec(later);
    SplitDistinct(all, k);
    forall x: nat ensures x in rest <==> x in all[k..] {
    }
    SameOrder(rows, done, now);
    forall i, j | 0 <= i < j < |rest| ensures ByReviewTime(rows)(rest[i], rest[j]) {
      assert ByReviewTime(later)(rest[i], rest[j]);
    }
    DistinctSame(rest, all[k..]);
    SortedUnique(rest, all[k..], ByReviewTime(rows));
  }

  /** Requeueing does not move a row in the review order. */
  lemma SameOrder(rows: seq<Payment>, ids: seq<nat>, now: Time)
    ensures forall i: nat, j: nat ::
              ByReviewTime(RequeuedRows(rows, ids, now))(i, j) <==> ByReviewTime(rows)(i, j)
  {
    var later := RequeuedRows(rows, ids, now);
    var key := (i: nat) => if i < |rows| then rows[i].manualReviewAt else None;
    var key' := (i: nat) => if i < |later| then later[i].manualReviewAt else None;
    assert forall i: nat :: key(i) == key'(i);
    forall i: nat, j: nat ensures ByReviewTime(later)(i, j) <==> ByReviewTime(rows)(i, j) {
      assert key(i) == key'(i) && key(j) == key'(j);
    }
  }

  lemma SplitDistinct(s: seq<nat>, k: nat)
    requires Distinct(s) && k <= |s|
    ensures forall x: nat :: x in s[k..] <==> x in s && x !in s[..k]
  {
    assert s == s[..k] + s[k..];
    forall x: nat | x in s[k..] ensures x !in s[..k] {
      var j :| k <= j < |s| && s[j] == x;
    }
  }

  lemma DistinctSame(r: seq<nat>, s: seq<nat>)
    requires Distinct(r) && Distinct(s)
    requires forall x: nat :: x in r <==> x in s
    ensures multiset(r) == multiset(s)
  {
    forall x: nat ensures multiset(r)[x] == multiset(s)[x] {
      DistinctCount(r, x);
      DistinctCount(s, x);
    }
  }

  lemma {:induction false} DistinctCount(s: seq<nat>, x: nat)
    requires Distinct(s)
    ensures multiset(s)[x] == if x in s then 1 else 0
  {
    if s != [] {
      assert s == [s[0]] + s[1..];
      DistinctCount(s[1..], x);
    }
  }

  /** How often x is listed. */
  function Times(s: seq<nat>, x: nat): (n: nat) {
    multiset(s)[x]
  }

  ghost function Members(s: seq<nat>): (r: set<nat>) {
    set x: nat | x in s
  }

  function InSet(s: set<nat>, x: nat): (n: nat) {
    if x in s then 1 else 0
  }

  // ----- Several administrators at once, and everybody else ----------------------------------

  /** One execution of the command: the batch it holds locked, the rows it has requeued so
      far in commit order, whether it has seen an empty selection, and whether it has died. */
  datatype Admin = Admin(locked: seq<nat>, requeued: seq<nat>, stopped: bool, died: bool)

  /** The eligible rows, the executions working on them, the requeues in commit order, the rows
      that became eligible meanwhile and the rows that another hand took away. */
  datatype Crowd = Crowd(left: set<nat>, admins: seq<Admin>, log: seq<nat>, entered: seq<nat>, gone: seq<nat>)

  const IDLE := Admin([], [], false, false)

  predicate Ended(v: Admin) {
    v.stopped || v.died
  }

  ghost predicate LockedByOther(c: Crowd, a: nat, x: nat) {
    exists b | 0 <= b < |c.admins| && b != a :: x in c.admins[b].locked
  }

  /** SELECT ... FOR UPDATE SKIP LOCKED: some batch of eligible rows that no other execution
      holds and that are not passed over; it is empty only when there are none. `skipped` are
      the rows other transactions hold at that moment (link creation, callbacks, the review
      commands) or have made eligible too late for the statement to see. */
  ghost predicate SelectBatch(c: Crowd, d: Crowd, a: nat, batch: seq<nat>, skipped: set<nat>) {
    && a < |c.admins| && !Ended(c.admins[a]) && c.admins[a].locked == []
    && Distinct(batch)
    && (forall x | x in batch :: x in c.left && !LockedByOther(c, a, x) && x !in skipped)
    && (batch == [] ==> forall x | x in c.left :: LockedByOther(c, a, x) || x in skipped)
    && d == c.(admins := c.admins[a := c.admins[a].(locked := batch, stopped := batch == [])])
  }

  /** The batch is requeued, one event per row, and the locks are released. */
  ghost predicate CommitBatch(c: Crowd, d: Crowd, a: nat) {
    && a < |c.admins| && c.admins[a].locked != []
    && d == c.(
         left := c.left - Members(c.admins[a].locked),
         admins := c.admins[a := c.admins[a].(locked := [], requeued := c.admins[a].requeued + c.admins[a].locked)],
         log := c.log + c.admins[a].locked)
  }

  /** The process dies, and the database releases what it held without requeueing it. */
  ghost predicate Die(c: Crowd, d: Crowd, a: nat) {
    && a < |c.admins| && !Ended(c.admins[a])
    && d == c.(admins := c.admins[a := c.admins[a].(locked := [], died := true)])
  }

  /** A payment moves into review with an eligible reason while the command runs. */
  ghost predicate EnterRow(c: Crowd, d: Crowd, x: nat) {
    x !in c.left && d == c.(left := c.left + {x}, entered := c.entered + [x])
  }

  /** A row no execution holds stops being eligible by another hand: review resolve or resend. */
  ghost predicate LeaveRow(c: Crowd, d: Crowd, x: nat) {
    && x in c.left && (forall a | 0 <= a < |c.admins| :: x !in c.admins[a].locked)
    && d == c.(left := c.left - {x}, gone := c.gone + [x])
  }

  ghost predicate AdminStep(c: Crowd, d: Crowd, a: nat, batch: seq<nat>, skipped: set<nat>) {
    SelectBatch(c, d, a, batch, skipped) || CommitBatch(c, d, a) || Die(c, d, a)
  }

  ghost predicate OtherStep(c: Crowd, d: Crowd, x: nat) {
    EnterRow(c, d, x) || LeaveRow(c, d, x)
  }

  ghost predicate CrowdNext(c: Crowd, d: Crowd) {
    || (exists a: nat, batch: seq<nat>, skipped: set<nat> :: AdminStep(c, d, a, batch, skipped))
    || (exists x: nat :: OtherStep(c, d, x))
  }

  ghost predicate CrowdInit(c: Crowd, eligible: set<nat>) {
    && c.left == eligible && c.log == [] && c.entered == [] && c.gone == []
    && forall a | 0 <= a < |c.admins| :: c.admins[a] == IDLE
  }

  ghost predicate CrowdRun(run: seq<Crowd>, eligible: set<nat>) {
    && |run| > 0 && CrowdInit(run[0], eligible)
    && forall i | 0 <= i < |run| - 1 :: CrowdNext(run[i], run[i + 1])
  }

  ghost predicate AllEnded(c: Crowd) {
    forall a | 0 <= a < |c.admins| :: Ended(c.admins[a])
  }

  /** Locked rows are eligible and locked once; an execution that has ended holds none. */
  ghost predicate LockInv(c: Crowd) {
    && (forall a, x | 0 <= a < |c.admins| && x in c.admins[a].locked :: x in c.left && !LockedByOther(c, a, x))
    && (forall a | 0 <= a < |c.admins| :: Distinct(c.admins[a].locked))
    && (forall a | 0 <= a < |c.admins| && Ended(c.admins[a]) :: c.admins[a].locked == [])
  }

  /** Of one row: what was eligible or became so was requeued, was taken away, or is left. */
  ghost predicate Account(c: Crowd, eligible: set<nat>, x: nat) {
    Times(c.log, x) + Times(c.gone, x) + InSet(c.left, x) == InSet(eligible, x) + Times(c.entered, x)
  }

  ghost predicate Balanced(c: Crowd, eligible: set<nat>) {
    && |c.log| + |c.gone| + |c.left| == |eligible| + |c.entered|
    && forall x: nat :: Account(c, eligible, x)
  }

  ghost predicate CrowdInv(c: Crowd, eligible: set<nat>) {
    LockInv(c) && Balanced(c, eligible)
  }

  lemma SelectKeepsInv(c: Crowd, d: Crowd, a: nat, batch: seq<nat>, skipped: set<nat>)
    requires LockInv(c) && SelectBatch(c, d, a, batch, skipped)
    ensures LockInv(d)
  {
    assert forall b | 0 <= b < |c.admins| && b != a :: d.admins[b] == c.admins[b];
    forall b, x | 0 <= b < |d.admins| && x in d.admins[b].locked
      ensures x in d.left && !LockedByOther(d, b, x)
    {
      if b != a {
        assert !LockedByOther(c, b, x);
        if x in batch {
          assert LockedByOther(c, a, x);
        }
      }
    }
  }

  lemma CommitLocks(c: Crowd, d: Crowd, a: nat)
    requires LockInv(c) && CommitBatch(c, d, a)
    ensures LockInv(d)
  {
    assert forall b | 0 <= b < |c.admins| && b != a :: d.admins[b] == c.admins[b];
    forall b, x | 0 <= b < |d.admins| && x in d.admins[b].locked
      ensures x in d.left && !LockedByOther(d, b, x)
    {
      assert b != a && x in c.admins[b].locked;
      assert !LockedByOther(c, b, x);
      assert x !in c.admins[a].locked;
    }
  }

  lemma CommitBalances(c: Crowd, d: Crowd, a: nat, eligible: set<nat>)
    requires LockInv(c) && Balanced(c, eligible) && CommitBatch(c, d, a)
    ensures Balanced(d, eligible)
  {
    var batch := c.admins[a].locked;
    forall x: nat ensures Account(d, eligible, x) {
      DistinctCount(batch, x);
      assert Account(c, eligible, x);
    }
    DistinctSize(batch);
    var taken := Members(batch);
    assert taken <= c.left && c.left == d.left + taken && |c.left| == |d.left| + |taken|;
  }

  lemma {:induction false} DistinctSize(s: seq<nat>)
    requires Distinct(s)
    ensures |Members(s)| == |s|
  {
    if s != [] {
      var n := |s| - 1;
      DistinctSize(s[..n]);
      assert s == s[..n] + [s[n]] && s[n] !in s[..n];
      assert Members(s) == Members(s[..n]) + {s[n]};
    }
  }

  lemma DieKeepsInv(c: Crowd, d: Crowd, a: nat)
    requires LockInv(c) && Die(c, d, a)
    ensures LockInv(d)
  {
    assert forall b | 0 <= b < |c.admins| && b != a :: d.admins[b] == c.admins[b];
    forall b, x | 0 <= b < |d.admins| && x in d.admins[b].locked ensures x in d.left && !LockedByOther(d, b, x) {
      assert !LockedByOther(c, b, x);
    }
  }

  lemma OtherKeepsInv(c: Crowd, d: Crowd, x: nat, eligible: set<nat>)
    requires CrowdInv(c, eligible) && OtherStep(c, d, x)
    ensures CrowdInv(d, eligible)
  {
    forall a, y | 0 <= a < |d.admins| && y in d.admins[a].locked ensures y in d.left && !LockedByOther(d, a, y) {
      assert !LockedByOther(c, a, y);
    }
    forall y: nat ensures Account(d, eligible, y) {
      assert Account(c, eligible, y);
    }
  }

  lemma CrowdInvStep(c: Crowd, d: Crowd, eligible: set<nat>)
    requires CrowdInv(c, eligible) && CrowdNext(c, d)
    ensures CrowdInv(d, eligible) && |d.admins| == |c.admins|
  {
    if x: nat :| OtherStep(c, d, x) {
      OtherKeepsInv(c, d, x, eligible);
    } else {
      var a: nat, batch: seq<nat>, skipped: set<nat> :| AdminStep(c, d, a, batch, skipped);
      if CommitBatch(c, d, a) {
        CommitLocks(c, d, a);
        CommitBalances(c, d, a, eligible);
      } else {
        if Die(c, d, a) {
          DieKeepsInv(c, d, a);
        } else {
          SelectKeepsInv(c, d, a, batch, skipped);
        }
        SameAccounts(c, d, eligible);
      }
    }
  }

  lemma SameAccounts(c: Crowd, d: Crowd, eligible: set<nat>)
    requires Balanced(c, eligible) && d == c.(admins := d.admins)
    ensures Balanced(d, eligible)
  {
    forall x: nat ensures Account(d, eligible, x) {
      assert Account(c, eligible, x);
    }
  }

  lemma {:induction false} CrowdRunInv(run: seq<Crowd>, eligible: set<nat>, k: nat)
    requires CrowdRun(run, eligible) && k < |run|
    ensures CrowdInv(run[k], eligible)
    ensures |run[k].admins| == |run[0].admins|
  {
    if k > 0 {
      CrowdRunInv(run, eligible, k - 1);
      CrowdInvStep(run[k - 1], run[k], eligible);
    }
  }

  // ----- Requeues of one row ---------------------------------------------------------------------

  /** With this step every execution has ended, stopped or died. */
  ghost predicate LastEnd(run: seq<Crowd>, t: nat) {
    0 < t < |run| && AllEnded(run[t]) && !AllEnded(run[t - 1])
  }

  lemma StopLeaves(c: Crowd, d: Crowd, a: nat, skipped: set<nat>)
    requires LockInv(c) && SelectBatch(c, d, a, [], skipped) && AllEnded(d)
    ensures d.left <= skipped
  {
    forall e | 0 <= e < |c.admins| && e != a ensures c.admins[e].locked == [] {
      assert d.admins[e] == c.admins[e] && Ended(d.admins[e]);
    }
    forall x | x in c.left ensures x in skipped {
      assert !LockedByOther(c, a, x);
    }
  }

  /** What the last execution leaves when it stops on an empty selection is what that selection
      passed over. */
  lemma LeftWasSkipped(run: seq<Crowd>, eligible: set<nat>, t: nat, a: nat, skipped: set<nat>)
    requires CrowdRun(run, eligible) && LastEnd(run, t) && SelectBatch(run[t - 1], run[t], a, [], skipped)
    ensures run[t].left <= skipped
  {
    CrowdRunInv(run, eligible, t - 1);
    StopLeaves(run[t - 1], run[t], a, skipped);
  }

  lemma EndedStays(c: Crowd, d: Crowd)
    requires LockInv(c) && AllEnded(c) && CrowdNext(c, d)
    ensures d.log == c.log && d.admins == c.admins
  {
    assert forall a | 0 <= a < |c.admins| :: Ended(c.admins[a]);
  }

  /** After the last end nothing is requeued any more. */
  lemma {:induction false} NothingAfterLast(run: seq<Crowd>, eligible: set<nat>, t: nat, k: nat)
    requires CrowdRun(run, eligible) && t <= k < |run| && AllEnded(run[t])
    ensures AllEnded(run[k]) && run[k].log == run[t].log && run[k].admins == run[t].admins
    decreases k - t
  {
    if t < k {
      NothingAfterLast(run, eligible, t, k - 1);
      CrowdRunInv(run, eligible, k - 1);
      EndedStays(run[k - 1], run[k]);
    }
  }

  /** How often a row has been requeued, at any point of any interleaving of administrators,
      worker and other operators: as often as it was or became eligible, less the times another
      hand took it away and the one time it may still be eligible. */
  lemma RequeueAccount(run: seq<Crowd>, eligible: set<nat>, k: nat, x: nat)
    requires CrowdRun(run, eligible) && k < |run|
    ensures Times(run[k].log, x) + Times(run[k].gone, x) + InSet(run[k].left, x) == InSet(eligible, x) + Times(run[k].entered, x)
    ensures SumCount(run[k].admins, x) == Times(run[k].log, x)
  {
    CrowdRunInv(run, eligible, k);
    assert Account(run[k], eligible, x);
    ReportsMatchLog([], run, eligible, k, x);
  }

  /** Once every execution has ended this account is settled for good. */
  lemma RequeueCount(run: seq<Crowd>, eligible: set<nat>, t: nat, k: nat, x: nat)
    requires CrowdRun(run, eligible) && LastEnd(run, t) && t <= k < |run|
    ensures Times(run[k].log, x) + Times(run[t].gone, x) + InSet(run[t].left, x) == InSet(eligible, x) + Times(run[t].entered, x)
    ensures SumCount(run[k].admins, x) == Times(run[k].log, x)
  {
    RequeueAccount(run, eligible, t, x);
    NothingAfterLast(run, eligible, t, k);
  }

  /** A row is requeued as the preview announces, once if it was eligible at the start and else
      not at all, exactly when before the last execution ended it became eligible just as often
      as another hand took it away or the end found it eligible. If it never became eligible
      meanwhile, that is: exactly when it was neither taken away nor passed over. Whenever it was
      requeued once, exactly one execution did it. */
  lemma ExactlyOneRequeues(run: seq<Crowd>, eligible: set<nat>, t: nat, k: nat, x: nat)
    requires CrowdRun(run, eligible) && LastEnd(run, t) && t <= k < |run|
    ensures Times(run[k].log, x) == InSet(eligible, x)
            <==> Times(run[t].entered, x) == Times(run[t].gone, x) + InSet(run[t].left, x)
    ensures x !in run[t].entered ==>
              (Times(run[k].log, x) == InSet(eligible, x) <==> x !in run[t].gone && x !in run[t].left)
    ensures x !in run[t].entered ==> Times(run[k].log, x) <= 1
    ensures Times(run[k].log, x) == 1 ==> exists a :: OnlyBy(run[k].admins, a, x)
  {
    RequeueCount(run, eligible, t, k, x);
    assert Times(run[t].entered, x) == 0 <==> x !in run[t].entered;
    assert Times(run[t].gone, x) == 0 <==> x !in run[t].gone;
    if Times(run[k].log, x) == 1 {
      var a := OneOwner(run[k].admins, x);
      assert OnlyBy(run[k].admins, a, x);
    }
  }

  /** Execution a requeued the row once, and no other execution did. */
  ghost predicate OnlyBy(admins: seq<Admin>, a: nat, x: nat) {
    && a < |admins| && Times(admins[a].requeued, x) == 1
    && forall b | 0 <= b < |admins| && b != a :: x !in admins[b].requeued
  }

  /** How often all executions together requeued a row. */
  ghost function SumCount(admins: seq<Admin>, x: nat): (n: nat) {
    if admins == [] then 0 else SumCount(admins[1..], x) + Times(admins[0].requeued, x)
  }

  lemma {:induction false} NoOwner(admins: seq<Admin>, x: nat)
    requires SumCount(admins, x) == 0
    ensures forall b | 0 <= b < |admins| :: x !in admins[b].requeued
  {
    if admins != [] {
      NoOwner(admins[1..], x);
      forall b | 0 <= b < |admins| ensures x !in admins[b].requeued {
        if b > 0 {
          assert admins[b] == admins[1..][b - 1];
        }
      }
    }
  }

  lemma {:induction false} OneOwner(admins: seq<Admin>, x: nat) returns (a: nat)
    requires SumCount(admins, x) == 1
    ensures OnlyBy(admins, a, x)
  {
    if Times(admins[0].requeued, x) == 1 {
      NoOwner(admins[1..], x);
      a := 0;
      forall b | 0 <= b < |admins| && b != 0 ensures x !in admins[b].requeued {
        assert admins[b] == admins[1..][b - 1];
      }
    } else {
      a := OneOwner(admins[1..], x);
      a := a + 1;
      forall b | 0 <= b < |admins| && b != a ensures x !in admins[b].requeued {
        if b > 0 {
          assert admins[b] == admins[1..][b - 1];
        }
      }
    }
  }

  // ----- Termination ---------------------------------------------------------------------------------

  /** A step of an execution strictly decreases (rows left, executions free to select,
      executions alive); only a row that becomes eligible undoes that. */
  lemma CrowdProgress(c: Crowd, d: Crowd, a: nat, batch: seq<nat>, skipped: set<nat>)
    requires LockInv(c) && AdminStep(c, d, a, batch, skipped)
    ensures || d.left < c.left
            || (d.left == c.left && Busy(d.admins) < Busy(c.admins))
            || (d.left == c.left && Busy(d.admins) == Busy(c.admins) && Alive(d.admins) < Alive(c.admins))
  {
    AdminUpdate(c.admins, a, d.admins[a]);
    if CommitBatch(c, d, a) {
      var x := c.admins[a].locked[0];
      assert x in c.admins[a].locked;
      assert x in c.left && x !in d.left;
    }
  }

  predicate Free(v: Admin) {
    !Ended(v) && v.locked == []
  }

  /** Executions that hold no batch and have not ended. */
  ghost function Busy(admins: seq<Admin>): (n: nat) {
    if admins == [] then 0 else Busy(admins[1..]) + if Free(admins[0]) then 1 else 0
  }

  ghost function Alive(admins: seq<Admin>): (n: nat)
    ensures n <= |admins|
  {
    if admins == [] then 0 else Alive(admins[1..]) + if admins[0].died then 0 else 1
  }

  lemma {:induction false} AdminUpdate(admins: seq<Admin>, a: nat, v: Admin)
    requires a < |admins|
    ensures Busy(admins[a := v]) == Busy(admins) + (if Free(v) then 1 else 0) - (if Free(admins[a]) then 1 else 0)
    ensures Alive(admins[a := v]) == Alive(admins) + (if v.died then 0 else 1) - (if admins[a].died then 0 else 1)
  {
    if a == 0 {
      assert admins[a := v][1..] == admins[1..];
    } else {
      assert admins[a := v][1..] == admins[1..][a - 1 := v];
      AdminUpdate(admins[1..], a - 1, v);
    }
  }

  lemma {:induction false} AllBusy(admins: seq<Admin>)
    requires forall a | 0 <= a < |admins| :: admins[a] == IDLE
    ensures Busy(admins) == Alive(admins) == |admins|
  {
    if admins != [] {
      AllBusy(admins[1..]);
    }
  }

  /** Nobody but an execution took this step. */
  ghost predicate ByAdmin(c: Crowd, d: Crowd) {
    d.entered == c.entered && d.gone == c.gone
  }

  /** The steps executions took in the first k steps of a run. */
  ghost function Moves(run: seq<Crowd>, k: nat): (n: nat)
    requires k < |run|
  {
    if k == 0 then 0 else Moves(run, k - 1) + if ByAdmin(run[k - 1], run[k]) then 1 else 0
  }

  lemma MoveCounted(c: Crowd, d: Crowd)
    requires LockInv(c) && CrowdNext(c, d)
    ensures ByAdmin(c, d) ==>
              1 + Busy(d.admins) + Alive(d.admins) + 2 * |c.log| <= Busy(c.admins) + Alive(c.admins) + 2 * |d.log|
    ensures !ByAdmin(c, d) ==> d.admins == c.admins && d.log == c.log
  {
    if a: nat, batch: seq<nat>, skipped: set<nat> :| AdminStep(c, d, a, batch, skipped) {
      AdminUpdate(c.admins, a, d.admins[a]);
    }
  }

  lemma {:induction false} MovesByLog(run: seq<Crowd>, eligible: set<nat>, k: nat)
    requires CrowdRun(run, eligible) && k < |run|
    ensures Moves(run, k) + Busy(run[k].admins) + Alive(run[k].admins) <= 2 * |run[k].log| + 2 * |run[0].admins|
  {
    if k == 0 {
      AllBusy(run[0].admins);
    } else {
      MovesByLog(run, eligible, k - 1);
      CrowdRunInv(run, eligible, k - 1);
      MoveCounted(run[k - 1], run[k]);
    }
  }

  /** However all of them interleave, the executions together take at most two steps for every
      row that was or became eligible, one each to end, and one more for each that dies. */
  lemma MovesBounded(run: seq<Crowd>, eligible: set<nat>, k: nat)
    requires CrowdRun(run, eligible) && k < |run|
    ensures Moves(run, k) <= 2 * (|eligible| + |run[k].entered|) + |run[0].admins| + (|run[k].admins| - Alive(run[k].admins))
  {
    MovesByLog(run, eligible, k);
    CrowdRunInv(run, eligible, k);
    assert Balanced(run[k], eligible);
  }

  /** Until all have ended some execution can take a step other than dying. */
  lemma CrowdNotStuck(c: Crowd)
    requires LockInv(c) && !AllEnded(c)
    ensures exists d, a: nat, batch: seq<nat> :: SelectBatch(c, d, a, batch, {}) || CommitBatch(c, d, a)
  {
    if a :| 0 <= a < |c.admins| && c.admins[a].locked != [] {
      var d := c.(
         left := c.left - Members(c.admins[a].locked),
         admins := c.admins[a := c.admins[a].(locked := [], requeued := c.admins[a].requeued + c.admins[a].locked)],
         log := c.log + c.admins[a].locked);
      assert CommitBatch(c, d, a);
      assert SelectBatch(c, d, a, [], {}) || CommitBatch(c, d, a);
    } else {
      var a :| 0 <= a < |c.admins| && !Ended(c.admins[a]);
      var batch := if c.left == {} then [] else var x :| x in c.left; [x];
      var d := c.(admins := c.admins[a := c.admins[a].(locked := batch, stopped := batch == [])]);
      assert SelectBatch(c, d, a, batch, {});
    }
  }

  // ----- Runs that show each part of the account ---------------------------------------------

  lemma RunOn(run: seq<Crowd>, d: Crowd, eligible: set<nat>) returns (longer: seq<Crowd>)
    requires CrowdRun(run, eligible) && CrowdNext(run[|run| - 1], d)
    ensures longer == run + [d] && CrowdRun(longer, eligible) && longer[|longer| - 1] == d
  {
    longer := run + [d];
    forall i | 0 <= i < |longer| - 1 ensures CrowdNext(longer[i], longer[i + 1]) {
      if i < |run| - 1 {
        assert CrowdNext(run[i], run[i + 1]);
      }
    }
  }

  /** One execution that is free and one row, in a crowd that has come so far. */
  function Lone(left: set<nat>, log: seq<nat>, entered: seq<nat>, gone: seq<nat>): (c: Crowd) {
    Crowd(left, [Admin([], log, false, false)], log, entered, gone)
  }

  /** The lone execution selects row 0 and requeues it. */
  lemma RequeuesRow(run: seq<Crowd>, c: Crowd) returns (longer: seq<Crowd>)
    requires CrowdRun(run, {0}) && run[|run| - 1] == c == Lone({0}, c.log, c.entered, c.gone)
    ensures CrowdRun(longer, {0}) && longer[|longer| - 1] == Lone({}, c.log + [0], c.entered, c.gone)
  {
    var locked := c.(admins := [Admin([0], c.log, false, false)]);
    assert c.admins[0 := Admin([0], c.log, false, false)] == locked.admins;
    assert SelectBatch(c, locked, 0, [0], {});
    assert AdminStep(c, locked, 0, [0], {});
    longer := RunOn(run, locked, {0});
    var done := Lone({}, c.log + [0], c.entered, c.gone);
    assert locked.left - Members(locked.admins[0].locked) == {};
    assert locked.admins[0 := Admin([], c.log + [0], false, false)] == done.admins;
    assert CommitBatch(locked, done, 0);
    assert AdminStep(locked, done, 0, [], {});
    longer := RunOn(longer, done, {0});
  }

  /** The lone execution stops, passing over what is left. */
  lemma Stops(run: seq<Crowd>, c: Crowd) returns (longer: seq<Crowd>)
    requires CrowdRun(run, {0}) && run[|run| - 1] == c == Lone(c.left, c.log, c.entered, c.gone)
    ensures CrowdRun(longer, {0}) && LastEnd(longer, |longer| - 1)
    ensures longer[|longer| - 1] == c.(admins := [Admin([], c.log, true, false)])
  {
    var d := c.(admins := [Admin([], c.log, true, false)]);
    assert c.admins[0 := Admin([], c.log, true, false)] == d.admins;
    assert SelectBatch(c, d, 0, [], c.left);
    assert AdminStep(c, d, 0, [], c.left);
    longer := RunOn(run, d, {0});
    assert longer[|longer| - 2] == c && !Ended(c.admins[0]);
  }

  lemma OneRow() returns (run: seq<Crowd>)
    ensures CrowdRun(run, {0}) && run[|run| - 1] == Lone({0}, [], [], [])
  {
    run := [Lone({0}, [], [], [])];
  }

  /** The only eligible row is resolved by an operator before the first selection: none became
      eligible meanwhile, and nobody requeues it. */
  lemma TakenAway() returns (run: seq<Crowd>, t: nat)
    ensures CrowdRun(run, {0}) && LastEnd(run, t) && run[t].entered == [] && run[t].gone == [0] && run[t].log == []
  {
    run := OneRow();
    var c, resolved := run[|run| - 1], Lone({}, [], [], [0]);
    assert LeaveRow(c, resolved, 0);
    assert OtherStep(c, resolved, 0);
    run := RunOn(run, resolved, {0});
    run := Stops(run, resolved);
    t := |run| - 1;
  }

  /** The only eligible row is held by another transaction at the only selection: the same. */
  lemma PassedOver() returns (run: seq<Crowd>, t: nat)
    ensures CrowdRun(run, {0}) && LastEnd(run, t) && run[t].entered == [] && run[t].left == {0} && run[t].log == []
  {
    run := OneRow();
    run := Stops(run, run[|run| - 1]);
    t := |run| - 1;
  }

  /** An execution dies holding its batch after the other one has stopped: the row stays. */
  lemma DiesHolding() returns (run: seq<Crowd>, t: nat)
    ensures CrowdRun(run, {0}) && LastEnd(run, t) && |run[t].admins| == 2 && run[t].admins[0].stopped
    ensures run[t].log == [] && run[t].entered == [] && run[t].gone == [] && run[t].left == {0}
  {
    var a, b, stopped, dead := IDLE, Admin([0], [], false, false), Admin([], [], true, false), Admin([], [], false, true);
    var c0 := Crowd({0}, [a, a], [], [], []);
    var c1 := c0.(admins := [a, b]);
    var c2 := c0.(admins := [stopped, b]);
    var c3 := c0.(admins := [stopped, dead]);
    assert c0.admins[1 := b] == c1.admins && c1.admins[0 := stopped] == c2.admins && c2.admins[1 := dead] == c3.admins;
    assert SelectBatch(c0, c1, 1, [0], {});
    assert AdminStep(c0, c1, 1, [0], {});
    assert c1.admins[1].locked == [0] && LockedByOther(c1, 0, 0);
    assert SelectBatch(c1, c2, 0, [], {});
    assert AdminStep(c1, c2, 0, [], {});
    assert Die(c2, c3, 1);
    assert AdminStep(c2, c3, 1, [], {});
    run, t := [c0, c1, c2, c3], 3;
    assert CrowdRun(run, {0}) && !Ended(c2.admins[1]) && LastEnd(run, 3);
  }

  /** An operator resends the row, the worker fails it again, and then it is requeued in bulk:
      it became eligible meanwhile and was still requeued exactly once. */
  lemma ResentAndBack() returns (run: seq<Crowd>, t: nat)
    ensures CrowdRun(run, {0}) && LastEnd(run, t) && run[t].log == [0] && run[t].entered == [0] && run[t].gone == [0]
  {
    run := OneRow();
    var c, sent, back := run[|run| - 1], Lone({}, [], [], [0]), Lone({0}, [], [0], [0]);
    assert LeaveRow(c, sent, 0);
    assert OtherStep(c, sent, 0);
    run := RunOn(run, sent, {0});
    assert EnterRow(sent, back, 0);
    assert OtherStep(sent, back, 0);
    run := RunOn(run, back, {0});
    run := RequeuesRow(run, back);
    run := Stops(run, run[|run| - 1]);
    t := |run| - 1;
  }

  /** One execution and one row that the worker fails again after every requeue: the same
      command requeues it any number of times and has still not stopped. */
  lemma {:induction false} RequeuedWithoutBound(n: nat) returns (run: seq<Crowd>, zeros: seq<nat>)
    ensures |zeros| == n && forall i | 0 <= i < n :: zeros[i] == 0
    ensures CrowdRun(run, {0}) && run[|run| - 1] == Lone({0}, zeros, zeros, [])
  {
    if n == 0 {
      run := OneRow();
      zeros := [];
    } else {
      run, zeros := RequeuedWithoutBound(n - 1);
      run := RequeuesRow(run, run[|run| - 1]);
      var done := run[|run| - 1];
      var back := Lone({0}, zeros + [0], zeros + [0], []);
      assert EnterRow(done, back, 0);
      assert OtherStep(done, back, 0);
      run := RunOn(run, back, {0});
      zeros := zeros + [0];
    }
  }

  // ----- Reports ------------------------------------------------------------------------------------------

  /** What all executions together have requeued, in counts and amounts. */
  ghost function TotalCount(admins: seq<Admin>): (n: nat) {
    if admins == [] then 0 else TotalCount(admins[1..]) + |admins[0].requeued|
  }

  ghost function TotalRequeued(rows: seq<Payment>, admins: seq<Admin>): (t: int) {
    if admins == [] then 0 else TotalRequeued(rows, admins[1..]) + TotalAmount(rows, admins[0].requeued)
  }

  /** The same for those that died (`died`), whose work nobody reports, or that did not. */
  ghost function CountOf(admins: seq<Admin>, died: bool): (n: nat) {
    if admins == [] then 0 else CountOf(admins[1..], died) + if admins[0].died == died then |admins[0].requeued| else 0
  }

  ghost function AmountOfAll(rows: seq<Payment>, admins: seq<Admin>, died: bool): (t: int) {
    if admins == [] then 0
    else AmountOfAll(rows, admins[1..], died) + if admins[0].died == died then TotalAmount(rows, admins[0].requeued) else 0
  }

  lemma {:induction false} ReportedAndLost(rows: seq<Payment>, admins: seq<Admin>)
    ensures CountOf(admins, false) + CountOf(admins, true) == TotalCount(admins)
    ensures AmountOfAll(rows, admins, false) + AmountOfAll(rows, admins, true) == TotalRequeued(rows, admins)
  {
    if admins != [] {
      ReportedAndLost(rows, admins[1..]);
    }
  }

  lemma {:induction false} ReportUpdate(rows: seq<Payment>, admins: seq<Admin>, a: nat, v: Admin, batch: seq<nat>, x: nat)
    requires a < |admins| && v.requeued == admins[a].requeued + batch
    ensures TotalCount(admins[a := v]) == TotalCount(admins) + |batch|
    ensures SumCount(admins[a := v], x) == SumCount(admins, x) + Times(batch, x)
    ensures TotalRequeued(rows, admins[a := v]) == TotalRequeued(rows, admins) + TotalAmount(rows, batch)
  {
    if a == 0 {
      assert admins[a := v][1..] == admins[1..];
      TotalConcat(rows, admins[0].requeued, batch);
    } else {
      assert admins[a := v][1..] == admins[1..][a - 1 := v];
      ReportUpdate(rows, admins[1..], a - 1, v, batch, x);
    }
  }

  lemma {:induction false} NothingReported(rows: seq<Payment>, admins: seq<Admin>, x: nat)
    requires forall a | 0 <= a < |admins| :: admins[a] == IDLE
    ensures TotalCount(admins) == 0 && TotalRequeued(rows, admins) == 0 && SumCount(admins, x) == 0
  {
    if admins != [] {
      NothingReported(rows, admins[1..], x);
    }
  }

  /** One step: what the executions report grows with the log. */
  lemma StepReports(rows: seq<Payment>, c: Crowd, d: Crowd, x: nat)
    requires CrowdNext(c, d)
    ensures TotalCount(d.admins) - |d.log| == TotalCount(c.admins) - |c.log|
    ensures TotalRequeued(rows, d.admins) - TotalAmount(rows, d.log) == TotalRequeued(rows, c.admins) - TotalAmount(rows, c.log)
    ensures SumCount(d.admins, x) - Times(d.log, x) == SumCount(c.admins, x) - Times(c.log, x)
  {
    if a: nat, batch: seq<nat>, skipped: set<nat> :| AdminStep(c, d, a, batch, skipped) {
      if CommitBatch(c, d, a) {
        ReportUpdate(rows, c.admins, a, d.admins[a], c.admins[a].locked, x);
        TotalConcat(rows, c.log, c.admins[a].locked);
      } else {
        assert d.admins[a].requeued == c.admins[a].requeued + [];
        ReportUpdate(rows, c.admins, a, d.admins[a], [], x);
      }
    }
  }

  /** All executions together report the log, in counts, amounts and for every row. */
  lemma {:induction false} ReportsMatchLog(rows: seq<Payment>, run: seq<Crowd>, eligible: set<nat>, k: nat, x: nat)
    requires CrowdRun(run, eligible) && k < |run|
    ensures TotalCount(run[k].admins) == |run[k].log|
    ensures TotalRequeued(rows, run[k].admins) == TotalAmount(rows, run[k].log)
    ensures SumCount(run[k].admins, x) == Times(run[k].log, x)
  {
    if k == 0 {
      NothingReported(rows, run[0].admins, x);
    } else {
      ReportsMatchLog(rows, run, eligible, k - 1, x);
      assert CrowdNext(run[k - 1], run[k]);
      StepReports(rows, run[k - 1], run[k], x);
    }
  }

  /** Conservation: once every execution has ended, what the surviving ones report, what the
      dead ones had requeued, what another hand took away and what is left (`rest`) add up, in
      counts and in amounts, to the preview and to what became eligible meanwhile. */
  lemma ReportsAddUpToPreview(rows: seq<Payment>, run: seq<Crowd>, t: nat, k: nat, rest: seq<nat>)
    requires CrowdRun(run, Members(Eligible(rows))) && LastEnd(run, t) && t <= k < |run|
    requires Distinct(rest) && Members(rest) == run[t].left
    ensures CountOf(run[k].admins, false) + CountOf(run[k].admins, true) + |run[t].gone| + |rest|
            == PreviewBulk(rows).count + |run[t].entered|
    ensures AmountOfAll(rows, run[k].admins, false) + AmountOfAll(rows, run[k].admins, true)
            + TotalAmount(rows, run[t].gone) + TotalAmount(rows, rest)
            == PreviewBulk(rows).totalAmount + TotalAmount(rows, run[t].entered)
  {
    var eligible := Members(Eligible(rows));
    var r, s := run[k].log + run[t].gone + rest, Eligible(rows) + run[t].entered;
    EligibleSpec(rows);
    ReportsMatchLog(rows, run, eligible, k, 0);
    ReportedAndLost(rows, run[k].admins);
    forall x: nat ensures Times(r, x) == Times(s, x) {
      RequeueCount(run, eligible, t, k, x);
      DistinctCount(Eligible(rows), x);
      DistinctCount(rest, x);
    }
    SameTimes(r, s);
    SameElements(r, s);
    TotalPermutation(rows, r, s);
    TotalConcat(rows, Eligible(rows), run[t].entered);
    TotalConcat(rows, run[k].log + run[t].gone, rest);
    TotalConcat(rows, run[k].log, run[t].gone);
  }

  lemma SameTimes(r: seq<nat>, s: seq<nat>)
    requires forall x: nat :: Times(r, x) == Times(s, x)
    ensures multiset(r) == multiset(s)
  {
    forall x: nat ensures multiset(r)[x] == multiset(s)[x] {
      assert Times(r, x) == Times(s, x);
    }
  }
}
