/** Delivering the chunks of a reply (app/adminbot/reply_delivery.py) under one time budget.
    What the transport answers to each send is arbitrary; the log records what was done. */
module ReplyDelivery {
  import opened Common

  const RETRY_DELAYS: seq<Time> := [1.0, 3.0]
  const ATTEMPTS_PER_CHUNK := 3
  const REPLY_TIME_BUDGET: Time := 15.0

  /** classify_send_error: a flood limit carries the seconds to wait. */
  datatype Outcome = Ok | Flood(retryAfter: int) | Transient | Permanent

  datatype Act =
    | Sent(chunk: nat, outcome: Outcome)
    | Slept(delay: Time)
    | Warned(outcome: Outcome)

  // ----- The protocol, as the list of acts it allows ---------------------------------------------------

  ghost function Tries(log: seq<Act>, c: nat): (n: nat) {
    if log == [] then 0
    else
      var last := log[|log| - 1];
      Tries(log[..|log| - 1], c) + if last.Sent? && last.chunk == c then 1 else 0
  }

  ghost function Sleep(log: seq<Act>): (t: Time) {
    if log == [] then 0.0
    else
      var last := log[|log| - 1];
      Sleep(log[..|log| - 1]) + if last.Slept? then last.delay else 0.0
  }

  ghost predicate Delivered(log: seq<Act>, c: nat) {
    Sent(c, Ok) in log
  }

  /** A chunk is sent only when everything before it has arrived and it has not, at most
      three times, and again only after a pause. */
  ghost predicate MaySend(log: seq<Act>, c: nat) {
    && (forall d: nat | d < c :: Delivered(log, d))
    && !Delivered(log, c)
    && Tries(log, c) < 3
    && (log == [] || log[|log| - 1].Slept? || (log[|log| - 1].Sent? && log[|log| - 1].outcome.Ok?))
  }

  /** A pause follows a failed send, lasts what Telegram or the backoff asks for, and fits into
      what is left of the budget. */
  ghost predicate MaySleep(log: seq<Act>, delay: Time) {
    && log != []
    && var last := log[|log| - 1];
    && last.Sent?
    && (match last.outcome
        case Flood(seconds) => delay == seconds as real
        case Transient => (Tries(log, last.chunk) == 1 && delay == 1.0) || (Tries(log, last.chunk) == 2 && delay == 3.0)
        case _ => false)
    && delay <= 15.0 - Sleep(log)
  }

  /** The last send failed and may not be repeated: the error is permanent, it was the third
      try, or the pause before another one does not fit into the budget. */
  ghost predicate Exhausted(log: seq<Act>) {
    && log != []
    && var last := log[|log| - 1];
    && last.Sent?
    && match last.outcome
       case Ok => false
       case Permanent => true
       case Flood(seconds) =>
         Tries(log, last.chunk) >= 3 || seconds as real > 15.0 - Sleep(log)
       case Transient =>
         || Tries(log, last.chunk) >= 3
         || (Tries(log, last.chunk) >= 1 && (if Tries(log, last.chunk) == 1 then 1.0 else 3.0) > 15.0 - Sleep(log))
  }

  /** The warning follows a send given up for another reason than a flood limit. */
  ghost predicate MayWarn(log: seq<Act>) {
    Exhausted(log) && !log[|log| - 1].outcome.Flood?
  }

  ghost predicate May(log: seq<Act>, a: Act) {
    match a
    case Sent(c, _) => MaySend(log, c)
    case Slept(delay) => MaySleep(log, delay)
    case Warned(_) => MayWarn(log)
  }

  ghost predicate Legal(log: seq<Act>) {
    log == [] || (Legal(log[..|log| - 1]) && May(log[..|log| - 1], log[|log| - 1]))
  }

  lemma LegalAppend(log: seq<Act>, a: Act)
    requires Legal(log) && May(log, a)
    ensures Legal(log + [a])
    ensures Sleep(log + [a]) == Sleep(log) + if a.Slept? then a.delay else 0.0
    ensures forall c: nat :: Tries(log + [a], c) == Tries(log, c) + if a.Sent? && a.chunk == c then 1 else 0
    ensures forall c: nat :: Delivered(log + [a], c) <==> Delivered(log, c) || a == Sent(c, Ok)
  {
    assert (log + [a])[..|log|] == log;
  }

  // ----- What every legal log guarantees ----------------------------------------------------------------

  /** All pauses of one reply together stay within the budget. */
  lemma {:induction false} WithinBudget(log: seq<Act>)
    requires Legal(log)
    ensures Sleep(log) <= 15.0
  {
    if log != [] {
      WithinBudget(log[..|log| - 1]);
    }
  }

  lemma {:induction false} AtMostThreeTries(log: seq<Act>, c: nat)
    requires Legal(log)
    ensures Tries(log, c) <= 3
  {
    if log != [] {
      AtMostThreeTries(log[..|log| - 1], c);
    }
  }

  /** The chunks that arrived are a prefix, and nothing beyond the next one was ever sent. */
  lemma {:induction false} DeliveredPrefix(log: seq<Act>, k: nat)
    requires Legal(log) && k < |log| && log[k].Sent?
    ensures forall d: nat | d < log[k].chunk :: Delivered(log, d)
  {
    var front := log[..|log| - 1];
    if k < |log| - 1 {
      DeliveredPrefix(front, k);
      forall d: nat | d < log[k].chunk ensures Delivered(log, d) {
        assert Delivered(front, d);
      }
    } else {
      forall d: nat | d < log[k].chunk ensures Delivered(log, d) {
        assert Delivered(front, d);
      }
    }
  }

  /** The warning is the last act, so there is at most one, and the failure before it was not
      a flood limit. */
  lemma {:induction false} WarningIsLast(log: seq<Act>, k: nat)
    requires Legal(log) && k < |log| && log[k].Warned?
    ensures k == |log| - 1 && k > 0 && log[k - 1].Sent? && !log[k - 1].outcome.Flood? && !log[k - 1].outcome.Ok?
  {
    var front := log[..|log| - 1];
    if k < |log| - 1 {
      WarningIsLast(front, k);
      assert false;
    } else {
      assert front[k - 1] == log[k - 1];
    }
  }

  /** Seconds actually spent waiting: a negative delay returns at once. */
  ghost function Waited(log: seq<Act>): (t: Time) {
    if log == [] then 0.0
    else
      var last := log[|log| - 1];
      Waited(log[..|log| - 1]) + if last.Slept? && last.delay > 0.0 then last.delay else 0.0
  }

  /** What negative delays give back to the budget. */
  ghost function Refunded(log: seq<Act>): (t: Time) {
    if log == [] then 0.0
    else
      var last := log[|log| - 1];
      Refunded(log[..|log| - 1]) + if last.Slept? && last.delay < 0.0 then -last.delay else 0.0
  }

  /** The time spent waiting exceeds the budget at most by what negative delays gave back, so
      it stays within it whenever Telegram never asks for a negative delay. */
  lemma {:induction false} WaitedWithinBudget(log: seq<Act>)
    requires Legal(log)
    ensures Waited(log) - Refunded(log) == Sleep(log)
    ensures Waited(log) <= 15.0 + Refunded(log)
    ensures (forall k | 0 <= k < |log| && log[k].Slept? :: log[k].delay >= 0.0) ==> Refunded(log) == 0.0
  {
    if log != [] {
      var front := log[..|log| - 1];
      WaitedWithinBudget(front);
      WithinBudget(log);
      if forall k | 0 <= k < |log| && log[k].Slept? :: log[k].delay >= 0.0 {
        forall k | 0 <= k < |front| && front[k].Slept? ensures front[k].delay >= 0.0 {
          assert front[k] == log[k];
        }
      }
    }
  }

  // ----- Exactly when a reply can wait longer than its budget -----------------------------------------

  /** Every flood limit of the reply asks for d seconds. */
  ghost predicate FloodsAre(log: seq<Act>, d: int) {
    forall k | 0 <= k < |log| && log[k].Sent? && log[k].outcome.Flood? :: log[k].outcome.retryAfter == d
  }

  /** Pauses are what the floods or the backoff ask for. */
  lemma {:induction false} PausesFromFloods(log: seq<Act>, d: int)
    requires Legal(log) && FloodsAre(log, d) && d >= 0
    ensures forall k | 0 <= k < |log| && log[k].Slept? :: log[k].delay >= 0.0
  {
    if log != [] {
      var front := log[..|log| - 1];
      forall k | 0 <= k < |front| && front[k].Sent? && front[k].outcome.Flood? ensures front[k].outcome.retryAfter == d {
        assert front[k] == log[k];
      }
      PausesFromFloods(front, d);
      forall k | 0 <= k < |log| && log[k].Slept? ensures log[k].delay >= 0.0 {
        if k < |front| {
          assert log[k] == front[k];
        } else {
          assert MaySleep(front, log[k].delay);
          assert front[|front| - 1] == log[|front| - 1];
        }
      }
    }
  }

  /** n chunks have arrived, each after a flood limit of d seconds and a backoff of 3. */
  ghost predicate Arrived(log: seq<Act>, d: int, n: nat) {
    && Legal(log) && FloodsAre(log, d)
    && (forall c: nat :: Delivered(log, c) <==> c < n)
    && (forall c: nat | c >= n :: Tries(log, c) == 0)
    && (log == [] || (log[|log| - 1].Sent? && log[|log| - 1].outcome.Ok?))
    && Sleep(log) <= 2.0 * n as real && Waited(log) == 3.0 * n as real
  }

  lemma FloodsAppend(log: seq<Act>, a: Act, d: int)
    requires FloodsAre(log, d) && (a.Sent? && a.outcome.Flood? ==> a.outcome.retryAfter == d)
    ensures FloodsAre(log + [a], d)
    ensures Waited(log + [a]) == Waited(log) + if a.Slept? && a.delay > 0.0 then a.delay else 0.0
  {
    assert (log + [a])[..|log|] == log;
  }

  /** One act more. */
  lemma Act1(log: seq<Act>, a: Act, d: int) returns (next: seq<Act>)
    requires Legal(log) && May(log, a) && FloodsAre(log, d) && (a.Sent? && a.outcome.Flood? ==> a.outcome.retryAfter == d)
    ensures next == log + [a] && Legal(next) && FloodsAre(next, d)
    ensures Sleep(next) == Sleep(log) + if a.Slept? then a.delay else 0.0
    ensures Waited(next) == Waited(log) + if a.Slept? && a.delay > 0.0 then a.delay else 0.0
    ensures forall c: nat :: Tries(next, c) == Tries(log, c) + if a.Sent? && a.chunk == c then 1 else 0
    ensures forall c: nat :: Delivered(next, c) <==> Delivered(log, c) || a == Sent(c, Ok)
  {
    next := log + [a];
    LegalAppend(log, a);
    FloodsAppend(log, a, d);
  }

  /** Chunk n has been refused once by a flood limit, and the pause is over. */
  ghost predicate Paused(log: seq<Act>, d: int, n: nat) {
    && Legal(log) && FloodsAre(log, d)
    && (forall c: nat :: Delivered(log, c) <==> c < n)
    && (forall c: nat | c > n :: Tries(log, c) == 0) && Tries(log, n) == 1
    && log != [] && log[|log| - 1].Slept?
    && Sleep(log) <= 2.0 * n as real - 1.0 && Waited(log) == 3.0 * n as real
  }

  lemma FloodAndPause(log: seq<Act>, d: int, n: nat) returns (next: seq<Act>)
    requires Arrived(log, d, n) && d < 0 && n <= 5
    ensures Paused(next, d, n)
  {
    var one := Act1(log, Sent(n, Flood(d)), d);
    next := Act1(one, Slept(d as real), d);
  }

  lemma BackoffAndArrive(log: seq<Act>, d: int, n: nat) returns (next: seq<Act>)
    requires Paused(log, d, n) && d < 0 && n <= 5
    ensures Arrived(next, d, n + 1)
  {
    var three := Act1(log, Sent(n, Transient), d);
    var four := Act1(three, Slept(3.0), d);
    next := Act1(four, Sent(n, Ok), d);
  }

  lemma {:induction false} Chunks(d: int, n: nat) returns (log: seq<Act>)
    requires d < 0 && n <= 6
    ensures Arrived(log, d, n)
  {
    if n == 0 {
      log := [];
    } else {
      log := Chunks(d, n - 1);
      log := FloodAndPause(log, d, n - 1);
      log := BackoffAndArrive(log, d, n - 1);
    }
  }

  /** A transport whose flood limits all ask for d seconds can make a reply wait longer than its
      budget exactly when d is negative: what it gives back pays for further backoffs. */
  lemma OverrunExactlyWhenNegative(d: int)
    ensures (exists log :: Legal(log) && FloodsAre(log, d) && Waited(log) > 15.0) <==> d < 0
  {
    if d < 0 {
      var log := Chunks(d, 6);
      assert Waited(log) == 18.0;
    } else {
      forall log | Legal(log) && FloodsAre(log, d) ensures Waited(log) <= 15.0 {
        PausesFromFloods(log, d);
        WaitedWithinBudget(log);
      }
    }
  }

  // ----- The delivery loops ---------------------------------------------------------------------------------

  datatype ChunkResult = ChunkResult(delivered: bool, abandonedDueToRetryAfter: bool)

  class Reply {
    /** What the transport answers to the n-th act of this reply. */
    const net: nat -> Outcome
    ghost var log: seq<Act>
    var acts: nat

    constructor (net: nat -> Outcome)
      ensures this.net == net && log == [] && acts == 0
    {
      this.net := net;
      log := [];
      acts := 0;
    }

    ghost predicate Valid()
      reads this
    {
      Legal(log) && acts == |log|
    }

    method Send(c: nat) returns (o: Outcome)
      requires Valid() && MaySend(log, c)
      modifies this
      ensures Valid() && log == old(log) + [Sent(c, o)]
    {
      o := net(acts);
      LegalAppend(log, Sent(c, o));
      log := log + [Sent(c, o)];
      acts := acts + 1;
    }

    method Pause(delay: Time)
      requires Valid() && MaySleep(log, delay)
      modifies this
      ensures Valid() && log == old(log) + [Slept(delay)]
    {
      LegalAppend(log, Slept(delay));
      log := log + [Slept(delay)];
      acts := acts + 1;
    }

    /** Everything about the other chunks is as it was. */
    ghost predicate Only(c: nat, before: seq<Act>)
      reads this
    {
      && before <= log
      && forall d: nat | d != c :: Tries(log, d) == Tries(before, d) && (Delivered(log, d) <==> Delivered(before, d))
    }

    /** The chunk may be tried for the given time. */
    ghost predicate Ready(c: nat, attempt: int, budget: Time)
      reads this
    {
      Valid() && MaySend(log, c) && Tries(log, c) == attempt - 1 && budget == REPLY_TIME_BUDGET - Sleep(log)
    }

    /** The chunk is done with, in the given way: its last send is the last act. */
    ghost predicate Done(c: nat, r: ChunkResult, budget: Time)
      reads this
    {
      && Valid() && budget == REPLY_TIME_BUDGET - Sleep(log)
      && log != []
      && var last := log[|log| - 1];
      && last.Sent? && last.chunk == c
      && (r.delivered <==> last.outcome.Ok?)
      && (r.abandonedDueToRetryAfter <==> last.outcome.Flood?)
      && (Delivered(log, c) <==> r.delivered)
      && (r.delivered || Exhausted(log))
    }

    /** One attempt, with the pause before the next one when there is to be one. */
    method Attempt(c: nat, attempt: int, timeBudget: Time) returns (r: Option<ChunkResult>, budget: Time)
      requires 1 <= attempt <= ATTEMPTS_PER_CHUNK && Ready(c, attempt, timeBudget)
      modifies this
      ensures Only(c, old(log))
      ensures r.None? ==> attempt < ATTEMPTS_PER_CHUNK && Ready(c, attempt + 1, budget)
      ensures r.Some? ==> Done(c, r.value, budget)
    {
      budget := timeBudget;
      ghost var before := log;
      var outcome := Send(c);
      LegalAppend(before, Sent(c, outcome));
      if outcome.Ok? {
        return Some(ChunkResult(true, false)), budget;
      }
      var isLast := attempt >= ATTEMPTS_PER_CHUNK;
      if outcome.Flood? && (outcome.retryAfter as real > budget || isLast) {
        return Some(ChunkResult(false, true)), budget;
      }
      if outcome.Permanent? || isLast {
        return Some(ChunkResult(false, false)), budget;
      }
      var delay := if outcome.Flood? then outcome.retryAfter as real else RETRY_DELAYS[attempt - 1];
      if delay > budget {
        return Some(ChunkResult(false, false)), budget;
      }
      ghost var sent := log;
      Pause(delay);
      LegalAppend(sent, Slept(delay));
      return None, budget - delay;
    }

    /** _deliver_one_chunk: at most three attempts. */
    method DeliverOneChunk(c: nat, timeBudget: Time) returns (r: ChunkResult, budget: Time)
      requires Ready(c, 1, timeBudget)
      modifies this
      ensures Only(c, old(log)) && Done(c, r, budget)
    {
      budget := timeBudget;
      var attempt := 1;
      while true
        invariant 1 <= attempt <= ATTEMPTS_PER_CHUNK && Ready(c, attempt, budget) && Only(c, old(log))
        decreases ATTEMPTS_PER_CHUNK - attempt
      {
        var result;
        result, budget := Attempt(c, attempt, budget);
        if result.Some? {
          return result.value, budget;
        }
        attempt := attempt + 1;
      }
    }

    /** All chunks arrived, or the last act is the warning or a send given up on a flood limit. */
    ghost predicate Ending(count: nat)
      reads this
    {
      || (forall c: nat | c < count :: Delivered(log, c))
      || (log != [] && var last := log[|log| - 1]; last.Warned? || (Exhausted(log) && last.outcome.Flood?))
    }

    /** deliver_reply_chunks: the chunks in order until one cannot be delivered; then the
        warning, unless Telegram has asked to wait. */
    method DeliverReplyChunks(count: nat)
      requires log == [] && acts == 0
      modifies this
      ensures Valid()
      ensures Ending(count)
      ensures forall d: nat | d >= count :: Tries(log, d) == 0
    {
      var budget := REPLY_TIME_BUDGET;
      var c := 0;
      while c < count
        invariant 0 <= c <= count && Valid() && budget == REPLY_TIME_BUDGET - Sleep(log)
        invariant forall d: nat :: Delivered(log, d) <==> d < c
        invariant forall d: nat | d >= c :: Tries(log, d) == 0
        invariant log == [] || (log[|log| - 1].Sent? && log[|log| - 1].outcome.Ok?)
      {
        var r;
        r, budget := DeliverOneChunk(c, budget);
        if !r.delivered {
          if !r.abandonedDueToRetryAfter {
            Warn();
          }
          return;
        }
        c := c + 1;
      }
    }

    /** _send_incomplete_warning: tried once, whatever the transport answers. */
    method Warn()
      requires Valid() && MayWarn(log)
      modifies this
      ensures Valid() && log != [] && log[|log| - 1].Warned?
      ensures forall d: nat :: Tries(log, d) == Tries(old(log), d)
    {
      var o := net(acts);
      LegalAppend(log, Warned(o));
      log := log + [Warned(o)];
      acts := acts + 1;
    }
  }
}
