/** The money model (app/services/fees.py): integer fees in basis points, rounded half up. */
module Fees {
  import opened Common
  import opened Rows

  const MAX_RATE_BPS := 10_000

  /** calculate_fee: None is the ValueError of an amount or a rate out of range. */
  function CalculateFee(amount: int, rateBps: int): (m: Option<Money>)
    ensures m.None? <==> amount <= 0 || !(0 <= rateBps <= MAX_RATE_BPS)
    ensures m.Some? ==> Snapshot(m.value) && m.value.amount == amount && m.value.rateBps == rateBps
  {
    if amount <= 0 || !(0 <= rateBps <= MAX_RATE_BPS) then None
    else
      var fee := (amount * rateBps + 5_000) / 10_000;
      FeeNearest(amount, rateBps, fee);
      Some(Money(amount, rateBps, fee, amount + fee))
  }

  function Abs(x: int): (r: int) {
    if x < 0 then -x else x
  }

  /** What every fee snapshot satisfies, said without the rounding formula: the fee is an
      integer nearest to the exact percentage, the upper one of a tie. */
  ghost predicate Snapshot(m: Money) {
    && m.amount > 0 && 0 <= m.rateBps <= MAX_RATE_BPS
    && m.payable == m.amount + m.fee
    && -5_000 < 10_000 * m.fee - m.amount * m.rateBps <= 5_000
  }

  lemma FeeNearest(amount: int, rateBps: int, fee: int)
    requires fee == (amount * rateBps + 5_000) / 10_000
    ensures -5_000 < 10_000 * fee - amount * rateBps <= 5_000
  {
  }

  /** No other integer is nearer, and among equally near ones the fee is the larger. */
  lemma NearestTiesUp(m: Money, other: int)
    requires Snapshot(m) && other != m.fee
    ensures Abs(10_000 * m.fee - m.amount * m.rateBps) <= Abs(10_000 * other - m.amount * m.rateBps)
    ensures Abs(10_000 * m.fee - m.amount * m.rateBps) == Abs(10_000 * other - m.amount * m.rateBps) ==> other < m.fee
  {
  }

  /** The snapshot condition determines the fee: it is the one calculate_fee returns. */
  lemma SnapshotUnique(m: Money)
    requires Snapshot(m)
    ensures CalculateFee(m.amount, m.rateBps) == Some(m)
  {
    var n := CalculateFee(m.amount, m.rateBps).value;
    assert m.fee == n.fee;
  }

  lemma FeeBounds(m: Money)
    requires Snapshot(m)
    ensures 0 <= m.fee <= m.amount
    ensures m.rateBps == 0 ==> m.fee == 0
    ensures m.rateBps == MAX_RATE_BPS ==> m.fee == m.amount
  {
    assert 0 <= m.amount * m.rateBps <= m.amount * MAX_RATE_BPS by {
      ProductMonotone(m.amount, m.amount, 0, m.rateBps);
      ProductMonotone(m.amount, m.amount, m.rateBps, MAX_RATE_BPS);
    }
  }

  lemma ProductMonotone(a: int, b: int, r: int, s: int)
    requires 0 <= a <= b && 0 <= r <= s
    ensures a * r <= b * s
  {
    assert (b - a) * s >= 0 && a * (s - r) >= 0;
    assert b * s - a * r == (b - a) * s + a * (s - r);
  }

  /** A larger invoice or a higher rate never has a smaller fee. */
  lemma FeeMonotone(m: Money, n: Money)
    requires Snapshot(m) && Snapshot(n) && m.amount <= n.amount && m.rateBps <= n.rateBps
    ensures m.fee <= n.fee && m.payable <= n.payable
  {
    ProductMonotone(m.amount, n.amount, m.rateBps, n.rateBps);
  }

  /** Splitting an invoice in two changes the fee by at most one. */
  lemma FeeOfSplit(whole: Money, left: Money, right: Money)
    requires Snapshot(whole) && Snapshot(left) && Snapshot(right)
    requires left.rateBps == whole.rateBps == right.rateBps && whole.amount == left.amount + right.amount
    ensures Abs(whole.fee - (left.fee + right.fee)) <= 1
  {
    assert whole.amount * whole.rateBps == left.amount * left.rateBps + right.amount * right.rateBps;
  }

  // ----- Reports ------------------------------------------------------------------------------

  /** The three sums of the sales report. */
  datatype Totals = Totals(count: nat, amount: int, fee: int, payable: int)

  function Report(rows: seq<Money>): (t: Totals) {
    if rows == [] then Totals(0, 0, 0, 0)
    else
      var n := |rows| - 1;
      var t := Report(rows[..n]);
      Totals(t.count + 1, t.amount + rows[n].amount, t.fee + rows[n].fee, t.payable + rows[n].payable)
  }

  /** The exact fees, in ten-thousandths. */
  ghost function Exact(rows: seq<Money>): (x: int) {
    if rows == [] then 0
    else
      var n := |rows| - 1;
      Exact(rows[..n]) + rows[n].amount * rows[n].rateBps
  }

  ghost predicate Stored(m: Money, max: int) {
    Snapshot(m) && m.payable <= max
  }

  /** The report adds up, and rounding costs or earns at most half a unit per invoice
      over the exact percentages. */
  lemma {:induction false} ReportAddsUp(rows: seq<Money>)
    requires forall i | 0 <= i < |rows| :: Snapshot(rows[i])
    ensures Report(rows).count == |rows|
    ensures Report(rows).payable == Report(rows).amount + Report(rows).fee
    ensures 0 <= Report(rows).fee <= Report(rows).amount
    ensures Abs(10_000 * Report(rows).fee - Exact(rows)) <= 5_000 * |rows|
  {
    if rows != [] {
      var n := |rows| - 1;
      ReportAddsUp(rows[..n]);
      FeeBounds(rows[n]);
    }
  }

  /** At one rate the exact fees are that rate of the turnover. */
  lemma {:induction false} ExactAtOneRate(rows: seq<Money>, rateBps: int)
    requires forall i | 0 <= i < |rows| :: rows[i].rateBps == rateBps
    ensures Exact(rows) == rateBps * Report(rows).amount
  {
    if rows != [] {
      var n := |rows| - 1;
      ExactAtOneRate(rows[..n], rateBps);
      assert rateBps * (Report(rows[..n]).amount + rows[n].amount)
          == rateBps * Report(rows[..n]).amount + rows[n].amount * rateBps;
    }
  }

  /** Rows within the configured maximum collect at most that maximum each. */
  lemma {:induction false} CollectedBounded(rows: seq<Money>, max: int)
    requires forall i | 0 <= i < |rows| :: Stored(rows[i], max)
    ensures Report(rows).payable <= |rows| * max
  {
    if rows != [] {
      var n := |rows| - 1;
      CollectedBounded(rows[..n], max);
      assert |rows| * max == n * max + max;
    }
  }
}
