/** The notification service as it runs (app/services/notification.py,
    app/services/verification.py and the operator branches of app/ops.py): methods that
    read and assign columns of the payments table under row locks.

    `flows` gives each row its history in the Delivery state machine; `Valid()` says that
    every row is reachable there, so each theorem about runs applies to this code. */
module Store {
  import opened Common
  import opened Rows
  import opened BotOutcome
  import opened Delivery
  import opened Attempts
  import opened Query
  import opened Bulk
  import Trail
  import Runs

  /** ClaimedPayment: what a worker keeps in memory between claim and result. */
  datatype Claimed = Claimed(payment: nat, attempt: nat, worker: string)

  /** What CentralPay's verify call answered. */
  datatype GatewayAnswer =
    | NoAnswer(message: string)
    | Unsuccessful(message: string)
    | Successful(reference: Option<string>, referenceInvalid: bool, amount: Option<int>, userId: Option<int>)

  /** Who settles: the payer's browser, or reconciliation and recovery polling on their own. */
  datatype Caller = Callback | Poller

  /** The mismatch of an answer without a usable reference id. */
  function ReferenceMismatch(invalid: bool): (event: string) {
    if invalid then "verify_invalid_reference_id" else "verify_missing_reference_id"
  }

  datatype Settlement = SettledVerified | SettledNotPaid | SettledReview | SettledTransportError

  /** One turn of the worker loop, as the environment plays it. */
  datatype Turn = Turn(claimAt: Time, locked: set<nat>, reply: Option<Reply>, recordAt: Time, jitter: real)

  function DueBy(rows: seq<Payment>, now: Time, locked: set<nat>): nat -> bool {
    (i: nat) => i < |rows| && i !in locked && Due(rows[i], now)
  }

  function StaleBy(cfg: Config, rows: seq<Payment>, now: Time, locked: set<nat>): nat -> bool {
    (i: nat) => i < |rows| && i !in locked && StaleClaim(cfg, rows[i], now)
  }

  function ByNextRetry(rows: seq<Payment>): (nat, nat) -> bool {
    Order((i: nat) => 0, (i: nat) => if i < |rows| then rows[i].nextRetryAt else None, false)
  }

  function ByClaimedAt(rows: seq<Payment>): (nat, nat) -> bool {
    Order((i: nat) => 0, (i: nat) => if i < |rows| then rows[i].claimedAt else None, false)
  }

  /** Both queries go by time, NULL last. */
  lemma TimesInOrder(rows: seq<Payment>, i: nat, j: nat)
    requires i < |rows| && j < |rows|
    ensures ByNextRetry(rows)(i, j) ==> NoLater(rows[i].nextRetryAt, rows[j].nextRetryAt)
    ensures ByClaimedAt(rows)(i, j) ==> NoLater(rows[i].claimedAt, rows[j].claimedAt)
  {
  }

  /** The claim query: ORDER BY next_retry_at ASC LIMIT 1 FOR UPDATE SKIP LOCKED. */
  method NextDue(rows: seq<Payment>, now: Time, locked: set<nat>) returns (next: Option<nat>)
    ensures next.None? ==> forall i | 0 <= i < |rows| && i !in locked :: !Claimable(rows[i], now)
    ensures next.Some? ==>
              && next.value < |rows| && next.value !in locked && Claimable(rows[next.value], now)
              && forall j | 0 <= j < |rows| && j !in locked && Claimable(rows[j], now) ::
                   NoLater(rows[next.value].nextRetryAt, rows[j].nextRetryAt)
  {
    var due, before := DueBy(rows, now, locked), ByNextRetry(rows);
    FirstSpec(|rows|, due, before);
    next := First(|rows|, due, before);
    forall i | 0 <= i < |rows| && i !in locked && Claimable(rows[i], now)
      ensures next.Some? && NoLater(rows[next.value].nextRetryAt, rows[i].nextRetryAt)
    {
      assert due(i);
      TimesInOrder(rows, next.value, i);
    }
  }

  lemma StaleIsHeld(cfg: Config, rows: seq<Payment>, now: Time, locked: set<nat>)
    ensures forall i: nat | i < |rows| :: StaleBy(cfg, rows, now, locked)(i) <==> i !in locked && HeldFor(rows[i], cfg.claimTimeout, now)
  {
  }

  lemma OldestFirst(cfg: Config, rows: seq<Payment>, now: Time, limit: nat, locked: set<nat>)
    ensures var ids := Take(OrderBy(Where(|rows|, StaleBy(cfg, rows, now, locked)), ByClaimedAt(rows)), limit);
      && Distinct(ids) && |ids| <= limit
      && (forall i | i in ids :: i < |rows| && i !in locked && HeldFor(rows[i], cfg.claimTimeout, now))
      && (|ids| < limit ==> forall i | 0 <= i < |rows| && i !in locked && HeldFor(rows[i], cfg.claimTimeout, now) :: i in ids)
      && (forall i: nat, j: nat | i in ids && j < |rows| && j !in locked && j !in ids && HeldFor(rows[j], cfg.claimTimeout, now) ::
            NoLater(rows[i].claimedAt, rows[j].claimedAt))
  {
    var stale, before := StaleBy(cfg, rows, now, locked), ByClaimedAt(rows);
    var ids := Take(OrderBy(Where(|rows|, stale), before), limit);
    StaleIsHeld(cfg, rows, now, locked);
    SelectSpec(|rows|, stale, before, limit);
    forall i: nat, j: nat | i in ids && j < |rows| && j !in locked && j !in ids && HeldFor(rows[j], cfg.claimTimeout, now)
      ensures NoLater(rows[i].claimedAt, rows[j].claimedAt)
    {
      assert stale(j) && before(i, j);
      TimesInOrder(rows, i, j);
    }
  }

  /** The stale-claim query: ORDER BY claimed_at ASC LIMIT n FOR UPDATE SKIP LOCKED. */
  method OldestStale(cfg: Config, rows: seq<Payment>, now: Time, limit: nat, locked: set<nat>)
    returns (ids: seq<nat>)
    ensures Distinct(ids) && |ids| <= limit
    ensures forall i | i in ids :: i < |rows| && i !in locked && HeldFor(rows[i], cfg.claimTimeout, now)
    ensures |ids| < limit ==>
              forall i | 0 <= i < |rows| && i !in locked && HeldFor(rows[i], cfg.claimTimeout, now) :: i in ids
    ensures forall i: nat, j: nat | i in ids && j < |rows| && j !in locked && j !in ids && HeldFor(rows[j], cfg.claimTimeout, now) ::
              NoLater(rows[i].claimedAt, rows[j].claimedAt)
  {
    OldestFirst(cfg, rows, now, limit, locked);
    ids := Take(OrderBy(Where(|rows|, StaleBy(cfg, rows, now, locked)), ByClaimedAt(rows)), limit);
  }

  ghost function Recovery(cfg: Config, now: Time, jitter: nat -> real): (nat, Payment) -> Payment {
    (i: nat, p: Payment) => Released(cfg, p, now, jitter(i))
  }

  ghost function RecoveryEvents(cfg: Config, rows: seq<Payment>, ids: seq<nat>): (es: seq<Event>) {
    if ids == [] then []
    else
      var id := ids[|ids| - 1];
      RecoveryEvents(cfg, rows, ids[..|ids| - 1]) + if id < |rows| then Trail.RecoveredEvents(cfg, rows[id], id) else []
  }

  /** The table and the trail after the first k of the stale claims were recovered. */
  datatype Recovering = Recovering(rows: seq<Payment>, events: seq<Event>)

  ghost function RecoveryAt(cfg: Config, start: seq<Payment>, log: seq<Event>, ids: seq<nat>, k: nat, now: Time,
                            jitter: nat -> real): (r: Recovering)
    requires k <= |ids|
    ensures |r.rows| == |start|
  {
    Recovering(UpdateAll(start, ids[..k], Recovery(cfg, now, jitter)), log + RecoveryEvents(cfg, start, ids[..k]))
  }

  lemma RecoveryNext(cfg: Config, start: seq<Payment>, log: seq<Event>, ids: seq<nat>, k: nat, now: Time, jitter: nat -> real)
    requires Distinct(ids) && k < |ids| && ids[k] < |start|
    ensures var r, id := RecoveryAt(cfg, start, log, ids, k, now, jitter), ids[k];
      && r.rows[id] == start[id]
      && RecoveryAt(cfg, start, log, ids, k + 1, now, jitter)
         == Recovering(r.rows[id := Released(cfg, start[id], now, jitter(id))], r.events + Trail.RecoveredEvents(cfg, start[id], id))
  {
    RecoveryEventsNext(cfg, start, ids, k);
    UpdateNext(start, ids, k, Recovery(cfg, now, jitter));
    var so, more := RecoveryEvents(cfg, start, ids[..k]), Trail.RecoveredEvents(cfg, start[ids[k]], ids[k]);
    assert log + (so + more) == (log + so) + more;
  }

  lemma RecoveryEventsNext(cfg: Config, rows: seq<Payment>, ids: seq<nat>, k: nat)
    requires k < |ids| && ids[k] < |rows|
    ensures RecoveryEvents(cfg, rows, ids[..k + 1]) == RecoveryEvents(cfg, rows, ids[..k]) + Trail.RecoveredEvents(cfg, rows[ids[k]], ids[k])
  {
    assert ids[..k + 1][..k] == ids[..k];
  }

  /** One admin_bulk_resend_requested event per requeued row. */
  ghost function BulkEvents(ids: seq<nat>): (es: seq<Event>)
    ensures |es| == |ids|
  {
    if ids == [] then []
    else BulkEvents(ids[..|ids| - 1]) + [Event(BulkResendRequested, Some(ids[|ids| - 1]))]
  }

  /** The table and the running report after the loop body ran for `ids`. */
  datatype Tally = Tally(rows: seq<Payment>, total: int, orderIds: seq<string>, events: seq<Event>)

  ghost function BulkState(start: seq<Payment>, log: seq<Event>, ids: seq<nat>, now: Time): (t: Tally)
    ensures |t.rows| == |start|
  {
    if ids == [] then Tally(start, 0, [], log)
    else
      var t, id := BulkState(start, log, ids[..|ids| - 1], now), ids[|ids| - 1];
      if id >= |start| then t
      else Tally(
        t.rows[id := Requeued(t.rows[id], now)],
        t.total + t.rows[id].money.amount,
        if |t.orderIds| < PREVIEW_ORDER_LIMIT then t.orderIds + [t.rows[id].orderId] else t.orderIds,
        t.events + [Event(BulkResendRequested, Some(id))])
  }

  lemma {:induction false} BulkStateSpec(start: seq<Payment>, log: seq<Event>, ids: seq<nat>, now: Time)
    requires Distinct(ids) && forall j | 0 <= j < |ids| :: ids[j] < |start|
    ensures BulkState(start, log, ids, now)
            == Tally(RequeuedRows(start, ids, now), TotalAmount(start, ids), Reported(start, ids), log + BulkEvents(ids))
  {
    if ids != [] {
      var front, id := ids[..|ids| - 1], ids[|ids| - 1];
      BulkStateSpec(start, log, front, now);
      assert id !in front;
    }
  }

  ghost function StateAt(start: seq<Payment>, log: seq<Event>, all: seq<nat>, k: nat, now: Time): (t: Tally)
    requires k <= |all|
    ensures |t.rows| == |start|
  {
    BulkState(start, log, all[..k], now)
  }

  lemma StateNext(start: seq<Payment>, log: seq<Event>, all: seq<nat>, k: nat, now: Time)
    requires Distinct(all) && k < |all| && forall j | 0 <= j < |all| :: all[j] < |start|
    ensures var t, p := StateAt(start, log, all, k, now), start[all[k]];
      && t.rows[all[k]] == p
      && StateAt(start, log, all, k + 1, now)
         == Tally(t.rows[all[k] := Requeued(p, now)], t.total + p.money.amount,
                  if |t.orderIds| < PREVIEW_ORDER_LIMIT then t.orderIds + [p.orderId] else t.orderIds,
                  t.events + [Event(BulkResendRequested, Some(all[k]))])
  {
    assert all[..k + 1][..k] == all[..k];
    assert all[k] !in all[..k];
    BulkStateSpec(start, log, all[..k], now);
  }

  lemma RestIndex(all: seq<nat>, k: nat, locked: seq<nat>)
    requires k <= |all| && locked <= all[k..]
    ensures k + |locked| <= |all| && forall j | 0 <= j < |locked| :: locked[j] == all[k + j]
  {
    assert forall j | 0 <= j < |locked| :: locked[j] == all[k..][j];
  }

  lemma BulkRemaining(start: seq<Payment>, log: seq<Event>, k: nat, now: Time)
    requires k <= |Eligible(start)|
    ensures forall j | 0 <= j < |Eligible(start)| :: Eligible(start)[j] < |start| && BulkEligible(start[Eligible(start)[j]])
    ensures Distinct(Eligible(start))
    ensures Eligible(StateAt(start, log, Eligible(start), k, now).rows) == Eligible(start)[k..]
  {
    EligibleSpec(start);
    assert forall j | 0 <= j < |Eligible(start)| :: Eligible(start)[j] in Eligible(start);
    BulkStateSpec(start, log, Eligible(start)[..k], now);
    RemainingEligible(start, k, now);
  }

  lemma BulkFinished(start: seq<Payment>, log: seq<Event>, now: Time)
    ensures StateAt(start, log, Eligible(start), |Eligible(start)|, now)
            == Tally(RequeuedRows(start, Eligible(start), now), PreviewBulk(start).totalAmount,
                     PreviewBulk(start).orderIds, log + BulkEvents(Eligible(start)))
    ensures forall i | 0 <= i < |start| :: !BulkEligible(RequeuedRows(start, Eligible(start), now)[i])
  {
    EligibleSpec(start);
    assert Eligible(start)[..|Eligible(start)|] == Eligible(start);
    BulkStateSpec(start, log, Eligible(start), now);
    ReportedIsPreviewed(start, Eligible(start));
  }

  /** The selection of the bulk command: ORDER BY manual_review_at NULLS FIRST, id LIMIT n
      FOR UPDATE SKIP LOCKED. */
  method NextBatch(rows: seq<Payment>, limit: nat, skipped: set<nat>) returns (batch: seq<nat>)
    ensures Distinct(batch) && |batch| <= limit
    ensures forall i | i in batch :: i < |rows| && Requeueable(rows[i]) && i !in skipped
    ensures |batch| < limit ==> forall i | 0 <= i < |rows| && Requeueable(rows[i]) && i !in skipped :: i in batch
    ensures forall a, b | 0 <= a < b < |batch| ::
              batch[a] < |rows| && batch[b] < |rows| && ReviewedEarlier(rows, batch[a], batch[b])
  {
    var free := (i: nat) => i < |rows| && BulkEligible(rows[i]) && i !in skipped;
    SelectSpec(|rows|, free, ByReviewTime(rows), limit);
    batch := Take(OrderBy(Where(|rows|, free), ByReviewTime(rows)), limit);
    assert |batch| < limit ==> forall i: nat | i < |rows| && free(i) :: i in batch;
    assert forall k | 0 <= k < |batch| :: batch[k] in batch;
    SortedByReview(rows, batch);
  }

  method ClaimColumns(payment: Payment, worker: string, now: Time) returns (p: Payment)
    ensures p == WithClaim(payment, worker, now)
  {
    p := payment;
    p := p.(attempts := p.attempts + 1);
    p := p.(claimedAt := Some(now));
    p := p.(claimedBy := Some(worker));
    if p.startedAt.None? {
      p := p.(startedAt := Some(now));
    }
  }

  /** The verdict on a successful gateway answer: every reported fact must match the
      stored snapshot and the reference must be new. */
  ghost function Judge(table: seq<Payment>, id: nat, a: GatewayAnswer): (v: Verdict)
    requires id < |table|
  {
    match a
    case NoAnswer(m) => TransportFailed(m)
    case Unsuccessful(m) => NotPaid(m)
    case Successful(reference, invalid, amount, userId) =>
      if reference.None? then Mismatch(ReferenceMismatch(invalid))
      else if amount != Some(table[id].money.payable) then Mismatch("verify_payable_amount_mismatch")
      else if userId != Some(table[id].payer.gatewayUserId) then Mismatch("verify_user_id_mismatch")
      else if exists j | 0 <= j < |table| && j != id :: table[j].referenceId == reference
      then Mismatch("reference_id_collision")
      else Verdict.Verified(reference.value)
  }

  /** A payment is verified exactly when CentralPay reports success with a reference id no
      other payment carries, the full payable amount and the stored payer. */
  lemma JudgeVerified(table: seq<Payment>, id: nat, a: GatewayAnswer)
    requires id < |table|
    ensures Judge(table, id, a).Verified? <==>
              && a.Successful? && a.reference.Some?
              && a.amount == Some(table[id].money.payable)
              && a.userId == Some(table[id].payer.gatewayUserId)
              && forall j | 0 <= j < |table| && j != id :: table[j].referenceId != a.reference
    ensures Judge(table, id, a).Verified? ==> a.reference == Some(Judge(table, id, a).reference)
  {
  }

  /** The first check the answer fails, in the order of the code. */
  ghost function Finding(p: Payment, a: GatewayAnswer): (event: string)
    requires a.Successful?
  {
    if a.reference.None? then (if a.referenceInvalid then "verify_invalid_reference_id" else "verify_missing_reference_id")
    else if a.amount != Some(p.money.payable) then "verify_payable_amount_mismatch"
    else if a.userId != Some(p.payer.gatewayUserId) then "verify_user_id_mismatch"
    else "reference_id_collision"
  }

  /** The answer proves the payment: success, the full payable amount, the stored payer, and a
      reference id that no other payment carries. */
  ghost predicate Proves(table: seq<Payment>, id: nat, a: GatewayAnswer)
    requires id < |table|
  {
    && a.Successful? && a.reference.Some?
    && a.amount == Some(table[id].money.payable)
    && a.userId == Some(table[id].payer.gatewayUserId)
    && forall j | 0 <= j < |table| && j != id :: table[j].referenceId != a.reference
  }

  /** What a settlement leaves on the row and in the trail, by CentralPay's answer. */
  lemma SettledByAnswer(table: seq<Payment>, id: nat, a: GatewayAnswer, now: Time)
    requires id < |table|
    ensures var p, v := table[id], Judge(table, id, a);
            var q := Settled(p, v, now);
      && (v.TransportFailed? <==> a.NoAnswer?) && (v.NotPaid? <==> a.Unsuccessful?)
      && (v.Verified? <==> Proves(table, id, a))
      && (v.Verified? ==> a.reference.Some? && q == p.(
            verifiedAt := Some(now), referenceId := a.reference, lastError := None,
            status := Pending, reason := None, nextRetryAt := Some(now)))
      && (v.Mismatch? ==> v.event == Finding(p, a) && q == p.(
            status := ManualReview, manualReviewAt := Some(now), lastError := Some(GatewayError(Finding(p, a)))))
      && (!a.Successful? ==> q == p.(lastError := Some(GatewayError(a.message))))
  {
    JudgeVerified(table, id, a);
  }

  /** A row with a history that the Delivery machine can produce. */
  ghost function TrackedBy(cfg: Config): (ok: (Payment, Flow) -> bool) {
    (p: Payment, f: Flow) => f.row == p && Reachable(cfg, f)
  }

  ghost predicate Carries(rows: seq<Payment>, reference: string) {
    rows != [] &&
    var n := |rows| - 1;
    rows[n].referenceId == Some(reference) || Carries(rows[..n], reference)
  }

  /** The UNIQUE constraint on reference_id. */
  ghost predicate UniqueReferences(rows: seq<Payment>) {
    rows == [] ||
    var n := |rows| - 1;
    UniqueReferences(rows[..n]) && (rows[n].referenceId.Some? ==> !Carries(rows[..n], rows[n].referenceId.value))
  }

  lemma {:induction false} CarriesSpec(rows: seq<Payment>, reference: string)
    ensures Carries(rows, reference) <==> exists i :: 0 <= i < |rows| && rows[i].referenceId == Some(reference)
  {
    if rows != [] {
      CarriesSpec(rows[..|rows| - 1], reference);
    }
  }

  lemma {:induction false} UniqueReferencesSpec(rows: seq<Payment>)
    ensures UniqueReferences(rows) <==>
              forall i, j | 0 <= i < j < |rows| && rows[j].referenceId.Some? :: rows[i].referenceId != rows[j].referenceId
  {
    if rows != [] {
      var n := |rows| - 1;
      UniqueReferencesSpec(rows[..n]);
      if rows[n].referenceId.Some? {
        CarriesSpec(rows[..n], rows[n].referenceId.value);
      }
    }
  }

  lemma UniqueUpdate(rows: seq<Payment>, i: nat, p: Payment)
    requires UniqueReferences(rows) && i < |rows|
    requires p.referenceId == rows[i].referenceId
          || forall j | 0 <= j < |rows| && j != i :: rows[j].referenceId != p.referenceId
    ensures UniqueReferences(rows[i := p])
  {
    UniqueReferencesSpec(rows);
    UniqueReferencesSpec(rows[i := p]);
  }

  /** One turn of the pass: of the due, unlocked payments one with the earliest retry time was
      claimed for its next attempt, and the outcome recorded under that claim. */
  ghost predicate Turned(cfg: Config, before: seq<Payment>, after: seq<Payment>, c: Claimed, t: Turn)
  {
    && c.payment < |before| && c.payment !in t.locked && Claimable(before[c.payment], t.claimAt)
    && (forall j | 0 <= j < |before| && j !in t.locked && Claimable(before[j], t.claimAt) ::
          NoLater(before[c.payment].nextRetryAt, before[j].nextRetryAt))
    && c.attempt == before[c.payment].attempts + 1
    && after == before[c.payment := Written(cfg, WithClaim(before[c.payment], c.worker, t.claimAt), t.reply,
                                            c.attempt, t.recordAt, t.jitter)]
  }

  /** The turns of a pass that led from one table to another, with the table after each. */
  ghost predicate Passed(cfg: Config, trail: seq<seq<Payment>>, done: seq<Claimed>, turns: seq<Turn>,
                         first: seq<Payment>, last: seq<Payment>) {
    && |trail| == |done| + 1 && |done| <= |turns|
    && trail[0] == first && trail[|done|] == last
    && forall k | 0 <= k < |done| :: Turned(cfg, trail[k], trail[k + 1], done[k], turns[k])
  }

  lemma PassedNext(cfg: Config, trail: seq<seq<Payment>>, done: seq<Claimed>, turns: seq<Turn>,
                   first: seq<Payment>, last: seq<Payment>, after: seq<Payment>, c: Claimed)
    requires Passed(cfg, trail, done, turns, first, last) && |done| < |turns|
    requires Turned(cfg, last, after, c, turns[|done|])
    ensures Passed(cfg, trail + [after], done + [c], turns, first, after)
  {
  }

  lemma LoggedNext(flows: seq<Flow>, done: seq<Claimed>, turns: seq<Turn>, c: Claimed)
    requires AllLogged(flows, done, turns) && |done| < |turns| && Logged(flows, c, turns[|done|])
    ensures AllLogged(flows, done + [c], turns)
  {
  }

  /** The request of a turn is in the send log of its payment. */
  ghost predicate Logged(flows: seq<Flow>, c: Claimed, t: Turn) {
    c.payment < |flows| && (t.reply.Some? ==> Sent(c.attempt, t.reply.value) in flows[c.payment].sends)
  }

  ghost predicate AllLogged(flows: seq<Flow>, done: seq<Claimed>, turns: seq<Turn>) {
    |done| <= |turns| && forall k | 0 <= k < |done| :: Logged(flows, done[k], turns[k])
  }

  /** The send logs have only grown. */
  ghost predicate SendsGrown(before: seq<Flow>, after: seq<Flow>) {
    |after| == |before| && forall i | 0 <= i < |after| :: before[i].sends <= after[i].sends
  }

  lemma StillLogged(before: seq<Flow>, after: seq<Flow>, done: seq<Claimed>, turns: seq<Turn>)
    requires AllLogged(before, done, turns) && SendsGrown(before, after)
    ensures AllLogged(after, done, turns)
  {
    forall k | 0 <= k < |done| ensures Logged(after, done[k], turns[k]) {
      assert Logged(before, done[k], turns[k]);
    }
  }

  /** The delivery action by which a worker records its result. */
  ghost function RecordAction(c: Claimed, reply: Option<Reply>, now: Time, jitter: real): (a: Action) {
    if reply.Some? then Action.Record(c.attempt, now, jitter) else Action.RecordUnconfigured(c.attempt, now, jitter)
  }

  /** What recording does to the history of the row: applied under the claim, else discarded. */
  lemma RecordEffect(cfg: Config, f: Flow, c: Claimed, reply: Option<Reply>, now: Time, jitter: real)
    requires c.attempt in f.tokens && f.tokens[c.attempt] == Token(c.worker, reply)
    ensures var a := RecordAction(c, reply, now, jitter);
            && Enabled(cfg, f, a)
            && var g := Apply(cfg, f, a);
            && g.row == (if OwnsClaim(f.row, c.worker, c.attempt) then Recorded(cfg, f.row, OutcomeOf(reply), c.attempt, now, jitter) else f.row)
            && c.attempt !in g.tokens && g.sends == f.sends
  {
  }

  lemma RecordedReference(cfg: Config, p: Payment, o: Outcome, attempt: nat, now: Time, jitter: real)
    ensures Recorded(cfg, p, o, attempt, now, jitter).referenceId == p.referenceId
  {
  }

  class PaymentStore {
    const cfg: Config
    var rows: seq<Payment>
    var events: seq<Event>
    ghost var flows: seq<Flow>

    /** Every row is reachable, and every event is accounted for. */
    ghost predicate Valid()
      reads this
    {
      Sound() && Trail.AllBalance(cfg.mode, rows, events)
    }

    ghost predicate Sound()
      reads this
    {
      ValidConfig(cfg) && |flows| == |rows| && Runs.Tracked(TrackedBy(cfg), rows, flows) && UniqueReferences(rows)
    }

    /** A worker's claim is alive and has (or has not) been sent. */
    ghost predicate Live(c: Claimed, reply: Option<Reply>)
      reads this
    {
      && c.payment < |flows|
      && c.attempt in flows[c.payment].tokens
      && flows[c.payment].tokens[c.attempt] == Token(c.worker, reply)
    }

    constructor (cfg: Config)
      requires ValidConfig(cfg)
      ensures Valid() && this.cfg == cfg && rows == [] && events == []
    {
      this.cfg := cfg;
      rows := [];
      events := [];
      flows := [];
    }

    /** Commits a new version of row i; `a` is the Delivery action that justifies it. */
    method Write(i: nat, p: Payment, ghost a: Action)
      requires Sound() && i < |rows|
      requires flows[i].row == rows[i] ==> Enabled(cfg, flows[i], a) && p == Apply(cfg, flows[i], a).row
      requires p.referenceId == rows[i].referenceId
            || forall j | 0 <= j < |rows| && j != i :: rows[j].referenceId != p.referenceId
      modifies this`rows, this`flows
      ensures Sound()
      ensures rows == old(rows)[i := p]
      ensures Enabled(cfg, old(flows)[i], a) && flows == old(flows)[i := Apply(cfg, old(flows)[i], a)]
    {
      Runs.TrackedAt(TrackedBy(cfg), rows, flows, i);
      Runs.StepReachable(Start(), Steps(cfg), flows[i], Apply(cfg, flows[i], a));
      Runs.TrackedUpdate(TrackedBy(cfg), rows, flows, i, p, Apply(cfg, flows[i], a));
      UniqueUpdate(rows, i, p);
      flows := flows[i := Apply(cfg, flows[i], a)];
      rows := rows[i := p];
    }

    /** The INSERT of _ensure_payment_row. */
    method Insert(p: Payment) returns (id: nat)
      requires Valid() && Fresh(p)
      modifies this`rows, this`flows
      ensures Valid()
      ensures id == |old(rows)| && rows == old(rows) + [p]
      ensures flows == old(flows) + [Flow(p, map[], [], [], 0, 0, 0)]
    {
      id := |rows|;
      ghost var f := Flow(p, map[], [], [], 0, 0, 0);
      Runs.InitReachable(Start(), Steps(cfg), f);
      Runs.TrackedAppend(TrackedBy(cfg), rows, flows, p, f);
      assert (rows + [p])[..|rows|] == rows;
      Trail.RowAdded(cfg.mode, rows, events, p);
      flows := flows + [f];
      rows := rows + [p];
    }

    /** What create_payment stores about a getLink call made in a linkable state. */
    method StoreLink(id: nat, payer: Payer, url: Option<string>, error: string)
      requires Valid() && id < |rows| && Linkable(rows[id]) && url != Some("")
      modifies this
      ensures Valid()
      ensures url.Some? ==>
                && rows == old(rows)[id := old(rows)[id].(payer := payer, status := LinkCreated, redirectUrl := url, lastError := None)]
                && events == old(events) + [Event(LinkIssued, Some(id))]
      ensures url.None? ==>
                && rows == old(rows)[id := old(rows)[id].(payer := payer, status := GetLinkFailed, lastError := Some(GatewayError(error)))]
                && events == old(events) + [Event(LinkFailed, Some(id))]
    {
      var payment := rows[id].(payer := payer);
      if url.None? {
        payment := payment.(status := GetLinkFailed);
        payment := payment.(lastError := Some(GatewayError(error)));
        Trail.QuietChange(cfg.mode, rows, events, id, payment, Event(LinkFailed, Some(id)));
        RecordEvent(LinkFailed, id);
        Write(id, payment, Action.FailLink(error, payer));
      } else {
        payment := payment.(status := LinkCreated);
        payment := payment.(redirectUrl := url);
        payment := payment.(lastError := None);
        Trail.QuietChange(cfg.mode, rows, events, id, payment, Event(LinkIssued, Some(id)));
        RecordEvent(LinkIssued, id);
        Write(id, payment, Action.CreateLink(url.value, payer));
      }
    }

    method RecordEvent(kind: EventKind, i: nat)
      modifies this`events
      ensures events == old(events) + [Event(kind, Some(i))]
    {
      events := events + [Event(kind, Some(i))];
    }

    /** The send logs of all payments but one are as they were. */
    ghost predicate SendsKept(before: seq<Flow>, but: Option<nat>)
      reads this
    {
      |flows| == |before| && forall i | 0 <= i < |flows| && Some(i) != but :: flows[i].sends == before[i].sends
    }

    /** claim_next_due: claims the due, unlocked row with the earliest retry time. */
    method ClaimNextDue(worker: string, now: Time, locked: set<nat>) returns (claimed: Option<Claimed>)
      requires Valid()
      modifies this
      ensures Valid()
      ensures claimed.None? ==>
                && rows == old(rows) && events == old(events) && flows == old(flows)
                && forall i | 0 <= i < |rows| && i !in locked :: !Claimable(rows[i], now)
      ensures claimed.Some? ==>
                var c := claimed.value;
                && c.payment < |old(rows)| && c.payment !in locked && c.worker == worker
                && Claimable(old(rows)[c.payment], now)
                && (forall j | 0 <= j < |old(rows)| && j !in locked && Claimable(old(rows)[j], now) ::
                      NoLater(old(rows)[c.payment].nextRetryAt, old(rows)[j].nextRetryAt))
                && c.attempt == old(rows)[c.payment].attempts + 1
                && rows == old(rows)[c.payment := WithClaim(old(rows)[c.payment], worker, now)]
                && rows[c.payment] == old(rows)[c.payment].(
                     attempts := c.attempt, claimedAt := Some(now), claimedBy := Some(worker), startedAt := rows[c.payment].startedAt)
                && rows[c.payment].startedAt == (if old(rows)[c.payment].startedAt.Some? then old(rows)[c.payment].startedAt else Some(now))
                && events == old(events) + [Event(NotificationStarted, Some(c.payment))]
                && Live(c, None)
                && SendsKept(old(flows), None)
    {
      var next := NextDue(rows, now, locked);
      if next.None? {
        return None;
      }
      var id := next.value;
      Runs.TrackedAt(TrackedBy(cfg), rows, flows, id);
      var payment := ClaimColumns(rows[id], worker, now);
      Trail.ClaimBalances(cfg.mode, rows[id], payment, Trail.Tally(events, id));
      Trail.OneEvent(cfg.mode, rows, events, id, payment, NotificationStarted);
      RecordEvent(NotificationStarted, id);
      Write(id, payment, Action.Claim(worker, now));
      claimed := Some(Claimed(id, payment.attempts, worker));
    }

    /** _move_to_manual_review. */
    method MoveToManualReview(payment: Payment, i: nat, reason: Reason, now: Time) returns (p: Payment)
      modifies this`events
      ensures p == InReview(payment, reason, now)
      ensures events == old(events) + [Event(ReviewRequired, Some(i))]
    {
      p := payment;
      p := p.(status := ManualReview);
      p := p.(reason := Some(reason));
      p := p.(manualReviewAt := Some(now));
      p := p.(nextRetryAt := None);
      p := p.(lastError := Some(ReviewError(reason)));
      p := p.(claimedAt := None, claimedBy := None);
      RecordEvent(ReviewRequired, i);
    }

    /** apply_accepted_state. */
    method ApplyAcceptedState(payment: Payment, now: Time) returns (p: Payment)
      ensures p.status == Accepted && p.acceptedAt == Some(now) && p.nextRetryAt.None? && p.claimedAt.None?
      ensures p == AcceptedState(payment, now)
    {
      p := payment;
      p := p.(status := Accepted);
      p := p.(reason := Some(NotifyAccepted));
      p := p.(acceptedAt := Some(now));
      p := p.(nextRetryAt := None);
      p := p.(lastError := None);
      p := p.(claimedAt := None, claimedBy := None);
    }

    /** record_attempt_result: applied while the row still carries this very claim,
        otherwise discarded with an audit event and no change to the row. */
    method RecordAttemptResult(c: Claimed, reply: Option<Reply>, now: Time, jitter: real)
      requires Valid() && Live(c, reply)
      modifies this
      ensures Valid()
      ensures var p := old(rows)[c.payment];
              && rows == old(rows)[c.payment :=
                           if OwnsClaim(p, c.worker, c.attempt) then Written(cfg, p, reply, c.attempt, now, jitter)
                           else p]
              && events == old(events) + Trail.RecordedEvents(cfg, reply, c.attempt, c.payment, OwnsClaim(p, c.worker, c.attempt))
      ensures c.attempt !in flows[c.payment].tokens
      ensures flows == old(flows)[c.payment := flows[c.payment]]
      ensures flows[c.payment].sends == old(flows)[c.payment].sends
    {
      var payment := rows[c.payment];
      Runs.TrackedAt(TrackedBy(cfg), rows, flows, c.payment);
      RecordEffect(cfg, flows[c.payment], c, reply, now, jitter);
      RecordedReference(cfg, payment, OutcomeOf(reply), c.attempt, now, jitter);
      RecordedIsWritten(cfg, payment, reply, c.attempt, now, jitter);
      Trail.ResultKeeps(cfg, rows, events, c.payment, reply, c.attempt, OwnsClaim(payment, c.worker, c.attempt), now, jitter);
      if payment.status != Pending || payment.claimedBy != Some(c.worker) || payment.attempts != c.attempt {
        RecordEvent(ResultDiscarded, c.payment);
      } else {
        payment := ApplyResult(payment, c, reply, now, jitter);
      }
      Write(c.payment, payment, RecordAction(c, reply, now, jitter));
    }

    /** The branches of record_attempt_result. */
    method ApplyResult(row: Payment, c: Claimed, reply: Option<Reply>, now: Time, jitter: real) returns (payment: Payment)
      modifies this`events
      ensures payment == Recorded(cfg, row, OutcomeOf(reply), c.attempt, now, jitter)
      ensures events == old(events) + Trail.RecordedEvents(cfg, reply, c.attempt, c.payment, true)
    {
      KindOfReply(cfg.mode, reply);
      var o := OutcomeOf(reply);
      payment := row.(lastHttpStatus := o.httpStatus);
      var effective := o.kind;
      if o.kind == KAmbiguous && cfg.mode == Idempotent {
        effective := KRetryable;
      } else if o.kind == KRetryable && cfg.mode == Safe && o.httpStatus.Some? && o.httpStatus.value in RETRYABLE_HTTP {
        effective := KManual;
      }
      match effective {
        case KAccepted =>
          payment := ApplyAcceptedState(payment, now);
          RecordEvent(NotificationAccepted, c.payment);
        case KRetryable =>
          RecordEvent(NotificationFailed, c.payment);
          if c.attempt >= cfg.maxAttempts {
            payment := MoveToManualReview(payment, c.payment, RetryLimitReached, now);
          } else {
            var delay := RetryDelay(c.attempt, o.retryAfter, jitter);
            payment := payment.(reason := Some(o.reason));
            payment := payment.(lastError := Some(RetryError(o.reason)));
            payment := payment.(nextRetryAt := Some(now + delay));
            payment := payment.(claimedAt := None, claimedBy := None);
            RecordEvent(RetryScheduled, c.payment);
          }
        case KAmbiguous =>
          RecordEvent(AmbiguousTimeout, c.payment);
          payment := MoveToManualReview(payment, c.payment, TimeoutAmbiguous, now);
        case KManual =>
          RecordEvent(NotificationFailed, c.payment);
          payment := MoveToManualReview(payment, c.payment, o.reason, now);
      }
    }

    /** execute_claimed_attempt: the request is sent with no transaction open, then its
        classified result is recorded with its events; without a notifier nothing is sent. */
    method ExecuteClaimedAttempt(c: Claimed, reply: Option<Reply>, now: Time, jitter: real)
      requires Valid() && Live(c, None)
      modifies this
      ensures Valid() && |rows| == |old(rows)|
      ensures c.attempt !in flows[c.payment].tokens
      ensures flows[c.payment].sends
              == old(flows)[c.payment].sends + if reply.Some? then [Sent(c.attempt, reply.value)] else []
      ensures SendsKept(old(flows), Some(c.payment))
      ensures var p := old(rows)[c.payment];
              && rows == old(rows)[c.payment :=
                           if OwnsClaim(p, c.worker, c.attempt) then Written(cfg, p, reply, c.attempt, now, jitter) else p]
              && events == old(events) + Trail.RecordedEvents(cfg, reply, c.attempt, c.payment, OwnsClaim(p, c.worker, c.attempt))
    {
      if reply.Some? {
        Write(c.payment, rows[c.payment], Action.Send(c.attempt, reply.value));
      }
      RecordAttemptResult(c, reply, now, jitter);
    }

    /** release_stale_claims: the oldest `limit` stale claims are recovered, nothing else changes. */
    method ReleaseStaleClaims(now: Time, jitter: nat -> real, limit: nat, locked: set<nat>)
      returns (count: nat, ghost batch: seq<nat>)
      requires Valid()
      modifies this
      ensures Valid() && |rows| == |old(rows)|
      ensures count == |batch| <= limit
      ensures forall i | i in batch ::
                i < |old(rows)| && i !in locked && old(rows)[i].status == Pending
                && old(rows)[i].claimedAt.Some? && now - old(rows)[i].claimedAt.value >= cfg.claimTimeout
      ensures forall i | 0 <= i < |rows| ::
                rows[i] == if i in batch then Released(cfg, old(rows)[i], now, jitter(i)) else old(rows)[i]
      ensures count < limit ==>
                forall i | 0 <= i < |rows| && i !in locked && old(rows)[i].status == Pending
                  && old(rows)[i].claimedAt.Some? && now - old(rows)[i].claimedAt.value >= cfg.claimTimeout :: i in batch
      ensures forall i: nat, j: nat | i in batch && j < |rows| && j !in locked && j !in batch
                && HeldFor(old(rows)[j], cfg.claimTimeout, now) ::
                NoLater(old(rows)[i].claimedAt, old(rows)[j].claimedAt)
      ensures events == old(events) + RecoveryEvents(cfg, old(rows), batch)
    {
      var ids := OldestStale(cfg, rows, now, limit, locked);
      batch := ids;
      RecoverAll(ids, now, jitter);
      count := |ids|;
    }

    /** The release_stale_claims loop. */
    method RecoverAll(ids: seq<nat>, now: Time, jitter: nat -> real)
      requires Valid() && Distinct(ids)
      requires forall i | i in ids :: i < |rows| && HeldFor(rows[i], cfg.claimTimeout, now)
      modifies this
      ensures Valid()
      ensures rows == UpdateAll(old(rows), ids, Recovery(cfg, now, jitter))
      ensures events == old(events) + RecoveryEvents(cfg, old(rows), ids)
    {
      ghost var start, log := rows, events;
      var count := 0;
      assert RecoveryAt(cfg, start, log, ids, 0, now, jitter) == Recovering(start, log);
      while count < |ids|
        invariant 0 <= count <= |ids|
        invariant Valid()
        invariant Recovering(rows, events) == RecoveryAt(cfg, start, log, ids, count, now, jitter)
      {
        assert ids[count] in ids;
        RecoverNext(ids, count, now, jitter, start, log);
        count := count + 1;
      }
      assert ids[..count] == ids;
    }

    method RecoverNext(ids: seq<nat>, k: nat, now: Time, jitter: nat -> real, ghost start: seq<Payment>, ghost log: seq<Event>)
      requires Valid() && Distinct(ids) && k < |ids|
      requires ids[k] < |start| && HeldFor(start[ids[k]], cfg.claimTimeout, now)
      requires Recovering(rows, events) == RecoveryAt(cfg, start, log, ids, k, now, jitter)
      modifies this
      ensures Valid()
      ensures Recovering(rows, events) == RecoveryAt(cfg, start, log, ids, k + 1, now, jitter)
    {
      RecoveryNext(cfg, start, log, ids, k, now, jitter);
      RecoverOne(ids[k], now, jitter(ids[k]));
    }

    /** The body of the release_stale_claims loop. */
    method RecoverOne(id: nat, now: Time, jitter: real)
      requires Valid() && id < |rows| && HeldFor(rows[id], cfg.claimTimeout, now)
      modifies this
      ensures Valid()
      ensures rows == old(rows)[id := Released(cfg, old(rows)[id], now, jitter)]
      ensures events == old(events) + Trail.RecoveredEvents(cfg, old(rows)[id], id)
    {
      RecoveredIsReleased(cfg, rows[id], now, jitter);
      Trail.RecoveryKeeps(cfg, rows, events, id, now, jitter);
      var payment := RecoverColumns(rows[id], id, now, jitter);
      Write(id, payment, Action.ReleaseStale(now, jitter));
    }

    method RecoverColumns(row: Payment, id: nat, now: Time, jitter: real) returns (payment: Payment)
      requires row.status == Pending
      modifies this`events
      ensures payment == Recovered(cfg, row, now, jitter)
      ensures events == old(events) + Trail.RecoveredEvents(cfg, row, id)
    {
      payment := row;
      var attempt := payment.attempts;
      RecordEvent(RecoveredAfterRestart, id);
      if cfg.mode == Idempotent && attempt >= cfg.maxAttempts {
        payment := MoveToManualReview(payment, id, RetryLimitReached, now);
      } else if cfg.mode == Idempotent {
        var delay := RetryDelay(attempt, None, jitter);
        payment := payment.(reason := Some(TimeoutAmbiguous));
        payment := payment.(nextRetryAt := Some(now + delay));
        payment := payment.(claimedAt := None, claimedBy := None);
      } else {
        RecordEvent(AmbiguousTimeout, id);
        payment := MoveToManualReview(payment, id, TimeoutAmbiguous, now);
      }
    }

    /** The body of the pass: None when nothing is due. */
    method WorkTurn(worker: string, t: Turn) returns (claimed: Option<Claimed>)
      requires Valid()
      modifies this
      ensures Valid() && SendsGrown(old(flows), flows)
      ensures claimed.None? ==>
                && rows == old(rows) && events == old(events)
                && forall i | 0 <= i < |rows| && i !in t.locked :: !Claimable(rows[i], t.claimAt)
      ensures claimed.Some? ==>
                && Turned(cfg, old(rows), rows, claimed.value, t) && Logged(flows, claimed.value, t)
                && events == old(events) + [Event(NotificationStarted, Some(claimed.value.payment))]
                             + Trail.RecordedEvents(cfg, t.reply, claimed.value.attempt, claimed.value.payment, true)
    {
      claimed := ClaimNextDue(worker, t.claimAt, t.locked);
      if claimed.Some? {
        ExecuteClaimedAttempt(claimed.value, t.reply, t.recordAt, t.jitter);
      }
    }

    /** The loop of the pass: up to as many due payments as there are turns. */
    method RunTurns(worker: string, turns: seq<Turn>) returns (processed: nat, ghost done: seq<Claimed>, ghost trail: seq<seq<Payment>>)
      requires Valid()
      modifies this
      ensures Valid() && processed == |done|
      ensures Passed(cfg, trail, done, turns, old(rows), rows) && AllLogged(flows, done, turns)
      ensures processed < |turns| ==>
                forall i | 0 <= i < |rows| && i !in turns[processed].locked :: !Claimable(rows[i], turns[processed].claimAt)
    {
      processed, done, trail := 0, [], [rows];
      while processed < |turns|
        invariant 0 <= processed <= |turns| && Valid() && processed == |done|
        invariant Passed(cfg, trail, done, turns, old(rows), rows) && AllLogged(flows, done, turns)
      {
        ghost var before, last := flows, rows;
        var claimed := WorkTurn(worker, turns[processed]);
        StillLogged(before, flows, done, turns);
        if claimed.None? {
          break;
        }
        PassedNext(cfg, trail, done, turns, old(rows), last, rows, claimed.value);
        LoggedNext(flows, done, turns, claimed.value);
        done, trail := done + [claimed.value], trail + [rows];
        processed := processed + 1;
      }
    }

    /** run_worker_pass: stale claims are recovered, then up to `batchSize` due payments are
        claimed, sent and recorded one after the other (`done`, with the table after each in
        `trail`); the pass stops early only when nothing is due. */
    method RunWorkerPass(worker: string, now: Time, jitter: nat -> real, staleLimit: nat, locked: set<nat>,
                         turns: seq<Turn>, batchSize: nat)
      returns (recovered: nat, processed: nat, ghost stale: seq<nat>, ghost done: seq<Claimed>, ghost trail: seq<seq<Payment>>)
      requires Valid() && |turns| == batchSize
      modifies this
      ensures Valid()
      ensures recovered == |stale| <= staleLimit && processed == |done| <= batchSize
      ensures forall i | i in stale :: i < |old(rows)| && i !in locked && HeldFor(old(rows)[i], cfg.claimTimeout, now)
      ensures recovered < staleLimit ==>
                forall i | 0 <= i < |old(rows)| && i !in locked && HeldFor(old(rows)[i], cfg.claimTimeout, now) :: i in stale
      ensures trail != [] && Passed(cfg, trail, done, turns, trail[0], rows) && AllLogged(flows, done, turns)
      ensures |trail[0]| == |old(rows)|
              && forall i | 0 <= i < |trail[0]| ::
                   trail[0][i] == if i in stale then Released(cfg, old(rows)[i], now, jitter(i)) else old(rows)[i]
      ensures processed < batchSize ==>
                forall i | 0 <= i < |rows| && i !in turns[processed].locked :: !Claimable(rows[i], turns[processed].claimAt)
    {
      recovered, stale := ReleaseStaleClaims(now, jitter, staleLimit, locked);
      processed, done, trail := RunTurns(worker, turns);
    }

    /** execute_manual_accept: refused with no change and no event unless the payment is
        pending and verified; None means the row does not exist. */
    method ExecuteManualAccept(id: nat, now: Time) returns (accepted: Option<bool>)
      requires Valid()
      modifies this
      ensures Valid()
      ensures accepted.None? <==> id >= |old(rows)|
      ensures accepted.Some? ==> (accepted.value <==> old(rows)[id].status == Pending && old(rows)[id].verifiedAt.Some?)
      ensures accepted == Some(true) ==>
                && rows == old(rows)[id := old(rows)[id].(
                     status := Accepted, reason := Some(NotifyAccepted), acceptedAt := Some(now), nextRetryAt := None,
                     lastError := None, claimedAt := None, claimedBy := None)]
                && events == old(events) + [Event(ManuallyAccepted, Some(id))]
      ensures accepted != Some(true) ==> rows == old(rows) && events == old(events)
    {
      if id >= |rows| {
        return None;
      }
      var payment := rows[id];
      if payment.status != Pending {
        return Some(false);
      }
      if payment.verifiedAt.None? {
        return Some(false);
      }
      payment := ApplyAcceptedState(payment, now);
      Trail.AcceptBalances(cfg.mode, rows[id], payment, Trail.Tally(events, id));
      Trail.OneEvent(cfg.mode, rows, events, id, payment, ManuallyAccepted);
      RecordEvent(ManuallyAccepted, id);
      Write(id, payment, Action.ManualAccept(now));
      return Some(true);
    }

    /** review resolve: the review is closed as history; the payment leaves the bulk list but
        keeps its status and everything about its delivery. */
    method ReviewResolve(id: nat, now: Time) returns (done: bool)
      requires Valid()
      modifies this
      ensures Valid()
      ensures done <==> id < |old(rows)| && old(rows)[id].status == ManualReview
      ensures done ==> rows == old(rows)[id := old(rows)[id].(reviewResolvedAt := Some(now))] && !BulkEligible(rows[id])
                       && events == old(events) + [Event(ReviewResolved, Some(id))]
      ensures !done ==> rows == old(rows) && events == old(events)
    {
      if id >= |rows| {
        return false;
      }
      var payment := rows[id];
      if payment.status != ManualReview {
        return false;
      }
      payment := payment.(reviewResolvedAt := Some(now));
      Trail.QuietChange(cfg.mode, rows, events, id, payment, Event(ReviewResolved, Some(id)));
      RecordEvent(ReviewResolved, id);
      Write(id, payment, Action.ResolveReview(now));
      return true;
    }

    /** review resend. */
    method ReviewResend(id: nat, now: Time) returns (done: bool)
      requires Valid()
      modifies this
      ensures Valid()
      ensures done <==> id < |old(rows)| && old(rows)[id].status == ManualReview && cfg.mode == Idempotent
                        && old(rows)[id].verifiedAt.Some?
      ensures done ==> rows == old(rows)[id := old(rows)[id].(
                                 status := Pending, nextRetryAt := Some(now), claimedAt := None, claimedBy := None)]
                       && events == old(events) + [Event(ResendRequested, Some(id))]
      ensures !done ==> rows == old(rows) && events == old(events)
    {
      if id >= |rows| {
        return false;
      }
      var payment := rows[id];
      if payment.status != ManualReview || cfg.mode != Idempotent || payment.verifiedAt.None? {
        return false;
      }
      payment := payment.(status := Pending);
      payment := payment.(nextRetryAt := Some(now));
      payment := payment.(claimedAt := None, claimedBy := None);
      Trail.RequeueBalances(cfg.mode, rows[id], payment, Trail.Tally(events, id));
      Trail.OneEvent(cfg.mode, rows, events, id, payment, ResendRequested);
      RecordEvent(ResendRequested, id);
      Write(id, payment, Action.Resend(now));
      return true;
    }

    /** requeue_failed_deliveries: batch after batch until nothing is eligible. Every
        eligible row is requeued once with one event, nothing else changes, and the report
        equals the preview. */
    method RequeueFailedDeliveries(now: Time, batchSize: nat) returns (result: BulkResult)
      requires Valid() && cfg.mode == Idempotent && batchSize > 0
      modifies this
      ensures Valid()
      ensures rows == RequeuedRows(old(rows), Eligible(old(rows)), now)
      ensures |rows| == |old(rows)|
      ensures forall i | 0 <= i < |rows| ::
                !Requeueable(rows[i]) && if Requeueable(old(rows)[i]) then BackInQueue(old(rows), rows, i, now) else rows[i] == old(rows)[i]
      ensures events == old(events) + BulkEvents(Eligible(old(rows))) + [Event(BulkResendCompleted, None)]
      ensures var p := PreviewBulk(old(rows));
              result == BulkResult(p.count, p.count, 0, p.totalAmount, p.orderIds)
    {
      ghost var start, all, log := rows, Eligible(rows), events;
      BulkRemaining(start, log, 0, now);
      var selected := |Eligible(rows)|;
      var requeued, total := 0, 0;
      var orderIds: seq<string> := [];
      while true
        invariant Valid() && requeued <= |all|
        invariant Eligible(rows) == all[requeued..]
        invariant Reports(start, all, requeued, now, log, total, orderIds)
        decreases |all| - requeued
      {
        var locked := Take(Eligible(rows), batchSize);
        if locked == [] {
          break;
        }
        RestIndex(all, requeued, locked);
        requeued, total, orderIds := RequeueBatch(locked, now, requeued, total, orderIds, start, all, log);
        BulkRemaining(start, log, requeued, now);
      }
      BulkFinished(start, log, now);
      AllRequeued(start, now);
      Trail.NobodysEvent(cfg.mode, rows, events, Event(BulkResendCompleted, None));
      events := events + [Event(BulkResendCompleted, None)];
      assert requeued == |all|;
      result := BulkResult(selected, requeued, Max(0, selected - requeued), total, orderIds);
    }

    /** The loop variables are those of the state after the first k rows. */
    ghost predicate Reports(start: seq<Payment>, all: seq<nat>, k: nat, now: Time, log: seq<Event>,
                            total: int, orderIds: seq<string>)
      requires k <= |all|
      reads this`rows, this`events
    {
      Tally(rows, total, orderIds, events) == StateAt(start, log, all, k, now)
    }

    /** One locked batch of the bulk loop. */
    method RequeueBatch(locked: seq<nat>, now: Time, requeued0: nat, total0: int, orderIds0: seq<string>,
                        ghost start: seq<Payment>, ghost all: seq<nat>, ghost log: seq<Event>)
      returns (requeued: nat, total: int, orderIds: seq<string>)
      requires Valid() && cfg.mode == Idempotent && Distinct(all)
      requires forall j | 0 <= j < |all| :: all[j] < |start| && BulkEligible(start[all[j]])
      requires requeued0 + |locked| <= |all| && forall j | 0 <= j < |locked| :: locked[j] == all[requeued0 + j]
      requires Reports(start, all, requeued0, now, log, total0, orderIds0)
      modifies this
      ensures Valid() && requeued == requeued0 + |locked|
      ensures Reports(start, all, requeued, now, log, total, orderIds)
    {
      requeued, total, orderIds := requeued0, total0, orderIds0;
      while requeued < requeued0 + |locked|
        invariant requeued0 <= requeued <= requeued0 + |locked| <= |all|
        invariant Valid()
        invariant Reports(start, all, requeued, now, log, total, orderIds)
      {
        var id := locked[requeued - requeued0];
        assert id == all[requeued] && BulkEligible(start[id]);
        StateNext(start, log, all, requeued, now);
        assert rows[id] == start[id];
        total, orderIds := RequeueAndReport(id, now, total, orderIds);
        requeued := requeued + 1;
      }
    }

    /** The body of the bulk loop. */
    method RequeueAndReport(id: nat, now: Time, total0: int, orderIds0: seq<string>) returns (total: int, orderIds: seq<string>)
      requires Valid() && cfg.mode == Idempotent && id < |rows| && BulkEligible(rows[id])
      modifies this
      ensures Valid()
      ensures rows == old(rows)[id := Requeued(old(rows)[id], now)]
      ensures events == old(events) + [Event(BulkResendRequested, Some(id))]
      ensures total == total0 + old(rows)[id].money.amount
      ensures orderIds == if |orderIds0| < PREVIEW_ORDER_LIMIT then orderIds0 + [old(rows)[id].orderId] else orderIds0
    {
      total, orderIds := Report(id, total0, orderIds0);
      RequeueOne(id, now);
    }

    /** One selection and commit of the command on the table as it is then: the first eligible
        rows in review order that no other transaction holds; none only when there are none. */
    method RequeueSelected(now: Time, batchSize: nat, skipped: set<nat>) returns (batch: seq<nat>, total: int, orderIds: seq<string>)
      requires Valid() && cfg.mode == Idempotent && batchSize > 0
      modifies this
      ensures Valid()
      ensures Distinct(batch) && |batch| <= batchSize
      ensures forall i | i in batch :: i < |old(rows)| && Requeueable(old(rows)[i]) && i !in skipped
      ensures |batch| < batchSize ==> forall i | 0 <= i < |old(rows)| && Requeueable(old(rows)[i]) && i !in skipped :: i in batch
      ensures rows == RequeuedRows(old(rows), batch, now) && events == old(events) + BulkEvents(batch)
      ensures |rows| == |old(rows)|
      ensures forall i | 0 <= i < |rows| :: if i in batch then BackInQueue(old(rows), rows, i, now) else rows[i] == old(rows)[i]
      ensures total == TotalAmount(old(rows), batch)
    {
      batch := NextBatch(rows, batchSize, skipped);
      ghost var start, log := rows, events;
      assert forall j | 0 <= j < |batch| :: batch[j] in batch;
      assert StateAt(start, log, batch, 0, now) == Tally(start, 0, [], log);
      var requeued;
      requeued, total, orderIds := RequeueBatch(batch, now, 0, 0, [], start, batch, log);
      assert batch[..|batch|] == batch;
      BulkStateSpec(start, log, batch, now);
      RequeuedColumns(start, batch, now);
    }

    /** The running totals of the bulk loop. */
    method Report(id: nat, total0: int, orderIds0: seq<string>) returns (total: int, orderIds: seq<string>)
      requires id < |rows|
      ensures total == total0 + rows[id].money.amount
      ensures orderIds == if |orderIds0| < PREVIEW_ORDER_LIMIT then orderIds0 + [rows[id].orderId] else orderIds0
    {
      total := total0 + rows[id].money.amount;
      orderIds := orderIds0;
      if |orderIds| < PREVIEW_ORDER_LIMIT {
        orderIds := orderIds + [rows[id].orderId];
      }
    }

    /** One locked payment goes back to the queue. */
    method RequeueOne(id: nat, now: Time)
      requires Valid() && cfg.mode == Idempotent && id < |rows| && BulkEligible(rows[id])
      modifies this
      ensures Valid()
      ensures rows == old(rows)[id := Requeued(old(rows)[id], now)]
      ensures events == old(events) + [Event(BulkResendRequested, Some(id))]
    {
      var payment := rows[id];
      payment := payment.(status := Pending);
      payment := payment.(nextRetryAt := Some(now));
      payment := payment.(claimedAt := None);
      payment := payment.(claimedBy := None);
      Trail.RequeueBalances(cfg.mode, rows[id], payment, Trail.Tally(events, id));
      Trail.OneEvent(cfg.mode, rows, events, id, payment, BulkResendRequested);
      RecordEvent(BulkResendRequested, id);
      Write(id, payment, Action.BulkRequeue(now));
    }

    /** The events of a settlement attempt, in order. */
    ghost function SettledEvents(caller: Caller, v: Verdict, id: nat): seq<Event> {
      match v
      case TransportFailed(_) => [Event(VerifyFailed, Some(id))]
      case NotPaid(_) => [Event(if caller == Callback then VerifyFailed else VerifyNotPaid, Some(id))]
      case Mismatch(e) => [Event(GatewayMismatch(e), Some(id)), Event(ReviewRequired, Some(id))]
      case Verified(_) => [Event(PaymentVerified, Some(id)), Event(NotificationQueued, Some(id))]
    }

    /** verify_and_settle with its callers' guard: settles an unverified payment at most
        once, only on a fully matching answer with a reference id no other row carries. "Not
        paid" is an anomaly for a returning payer and routine for a poller. */
    method VerifyAndSettle(id: nat, caller: Caller, answer: GatewayAnswer, now: Time) returns (outcome: Option<Settlement>)
      requires Valid() && id < |rows|
      modifies this
      ensures Valid()
      ensures outcome.None? <==> old(rows)[id].verifiedAt.Some? || old(rows)[id].status in {GatewayVerified, Pending, Accepted, ManualReview}
      ensures outcome.None? ==> rows == old(rows) && events == old(events)
      ensures outcome.Some? ==>
                && (outcome == Some(SettledVerified) <==> Proves(old(rows), id, answer))
                && (outcome == Some(SettledNotPaid) <==> answer.Unsuccessful?)
                && (outcome == Some(SettledTransportError) <==> answer.NoAnswer?)
      ensures outcome == Some(SettledVerified) ==>
                && answer.reference.Some? && rows == old(rows)[id := old(rows)[id].(
                     verifiedAt := Some(now), referenceId := answer.reference, lastError := None,
                     status := Pending, reason := None, nextRetryAt := Some(now))]
                && events == old(events) + [Event(PaymentVerified, Some(id)), Event(NotificationQueued, Some(id))]
      ensures outcome == Some(SettledReview) ==>
                && answer.Successful?
                && var finding := Finding(old(rows)[id], answer);
                && rows == old(rows)[id := old(rows)[id].(
                     status := ManualReview, manualReviewAt := Some(now), lastError := Some(GatewayError(finding)))]
                && events == old(events) + [Event(GatewayMismatch(finding), Some(id)), Event(ReviewRequired, Some(id))]
      ensures outcome == Some(SettledNotPaid) || outcome == Some(SettledTransportError) ==>
                && !answer.Successful? && rows == old(rows)[id := old(rows)[id].(lastError := Some(GatewayError(answer.message)))]
                && events == old(events) + [Event(if answer.Unsuccessful? && caller == Poller then VerifyNotPaid else VerifyFailed, Some(id))]
    {
      var payment := rows[id];
      if payment.status in {GatewayVerified, Pending, Accepted} || payment.verifiedAt.Some? || payment.status == ManualReview {
        return None;
      }
      ghost var before, log := rows, events;
      SettledByAnswer(rows, id, answer, now);
      var verdict := Examine(id, answer);
      var settlement;
      payment, settlement := ApplyVerdict(payment, id, caller, verdict, now);
      Trail.SettlementKeeps(cfg.mode, before, log, id, payment, SettledEvents(caller, verdict, id));
      Write(id, payment, Action.SettlePayment(verdict, now));
      outcome := Some(settlement);
    }

    method ApplyVerdict(row: Payment, id: nat, caller: Caller, verdict: Verdict, now: Time) returns (payment: Payment, outcome: Settlement)
      modifies this`events
      ensures payment == Settled(row, verdict, now)
      ensures outcome == match verdict
                         case TransportFailed(_) => SettledTransportError
                         case NotPaid(_) => SettledNotPaid
                         case Mismatch(_) => SettledReview
                         case Verified(_) => SettledVerified
      ensures events == old(events) + SettledEvents(caller, verdict, id)
    {
      payment := row;
      match verdict {
        case TransportFailed(m) =>
          payment := payment.(lastError := Some(GatewayError(m)));
          RecordEvent(VerifyFailed, id);
          outcome := SettledTransportError;
        case NotPaid(m) =>
          payment := payment.(lastError := Some(GatewayError(m)));
          RecordEvent(if caller == Callback then VerifyFailed else VerifyNotPaid, id);
          outcome := SettledNotPaid;
        case Mismatch(event) =>
          RecordEvent(GatewayMismatch(event), id);
          payment := payment.(status := ManualReview);
          payment := payment.(manualReviewAt := Some(now));
          payment := payment.(lastError := Some(GatewayError(event)));
          RecordEvent(ReviewRequired, id);
          outcome := SettledReview;
        case Verified(reference) =>
          payment := payment.(verifiedAt := Some(now));
          payment := payment.(referenceId := Some(reference));
          payment := payment.(lastError := None);
          RecordEvent(PaymentVerified, id);
          payment := payment.(status := Pending, reason := None, nextRetryAt := Some(now));
          RecordEvent(NotificationQueued, id);
          outcome := SettledVerified;
      }
    }

    /** The checks of _validate_and_apply_verification, in their order. */
    method Examine(id: nat, answer: GatewayAnswer) returns (verdict: Verdict)
      requires id < |rows|
      ensures verdict == Judge(rows, id, answer)
    {
      match answer {
        case NoAnswer(m) => return TransportFailed(m);
        case Unsuccessful(m) => return NotPaid(m);
        case Successful(reference, invalid, amount, userId) =>
          if reference.None? {
            return Mismatch(ReferenceMismatch(invalid));
          }
          if amount != Some(rows[id].money.payable) {
            return Mismatch("verify_payable_amount_mismatch");
          }
          if userId != Some(rows[id].payer.gatewayUserId) {
            return Mismatch("verify_user_id_mismatch");
          }
          if exists j | 0 <= j < |rows| && j != id :: rows[j].referenceId == reference {
            return Mismatch("reference_id_collision");
          }
          return Verdict.Verified(reference.value);
      }
    }
  }

  /** What the theorems about runs say of the table itself, whatever sequence of the
      methods above produced it. */
  lemma StoreGuarantees(s: PaymentStore, i: nat)
    requires s.Valid() && i < |s.rows|
    ensures RowInv(s.rows[i])
    ensures s.rows[i].verifiedAt.Some? <==> s.rows[i].referenceId.Some?
    ensures forall j | 0 <= j < |s.rows| && j != i && s.rows[i].verifiedAt.Some? && s.rows[j].verifiedAt.Some? ::
              s.rows[j].referenceId != s.rows[i].referenceId
    ensures forall j | 0 <= j < |s.rows| && j != i && s.rows[i].referenceId.Some? ::
              s.rows[j].referenceId != s.rows[i].referenceId
    ensures s.rows[i].attempts <= s.cfg.maxAttempts + s.flows[i].requeues
    ensures |s.flows[i].sends| <= s.rows[i].attempts
    ensures s.cfg.mode == Safe ==>
              forall k | 0 <= k < |s.flows[i].sends| && Risky(s.flows[i].sends[k]) ::
                && k == |s.flows[i].sends| - 1
                && s.flows[i].sends[k].attempt == s.rows[i].attempts
                && (s.rows[i].claimedAt.Some? || s.rows[i].status in {Accepted, ManualReview})
  {
    Runs.TrackedAt(TrackedBy(s.cfg), s.rows, s.flows, i);
    UniqueReferencesSpec(s.rows);
    var run :| Runs.IsRun(Start(), Steps(s.cfg), run) && run[|run| - 1] == s.flows[i];
    RunInv(s.cfg, run, |run| - 1);
    BoundedDelivery(s.cfg, run, |run| - 1);
    if s.cfg.mode == Safe {
      SafeModeAtMostOnce(s.cfg, run, |run| - 1);
    }
  }

  /** The audit trail accounts for every row, whatever sequence of the methods above wrote them:
      each attempt was started once; a payment was verified and queued exactly once if it is
      verified; accepted once if it is accepted; every entry into manual review but the last was
      left by a requeue; and each attempt ended in the trail except the one still held, or the one
      an operator's acceptance cut short. */
  lemma TrailAccounts(s: PaymentStore, i: nat)
    requires s.Valid() && i < |s.rows|
    ensures var p, c := s.rows[i], Trail.Tally(s.events, i);
      && c.started == p.attempts
      && c.verified == c.queued == (if p.verifiedAt.Some? then 1 else 0)
      && c.accepted + c.byHand == (if p.status == Accepted then 1 else 0)
      && c.reviews == c.resent + (if p.status == ManualReview then 1 else 0)
      && (s.cfg.mode == Safe ==> c.resent == 0)
      && (p.claimedAt.Some? ==> c.accepted + c.failed + (if s.cfg.mode == Safe then c.ambiguous else c.recovered) == p.attempts - 1)
  {
    assert Trail.Balances(s.cfg.mode, s.rows[i], Trail.Tally(s.events, i));
  }
}
