/** What an attempt and its claim come to (app/services/notification.py, app/bot.py), said from the
    bot's reply and the clock alone: the columns a result writes, the delay before the next try, how
    long a claim is left to its worker, and which payments the bulk requeue may pick up afterwards. */
module Attempts {
  import opened Common
  import opened Rows
  import opened BotOutcome
  import opened Delivery
  import Runs

  /** What is recorded about an attempt; None means that no notifier is configured. */
  function OutcomeOf(reply: Option<Reply>): (o: Outcome) {
    if reply.Some? then Classify(reply.value) else UNCONFIGURED
  }

  // ----- The delay before the next attempt ----------------------------------------------------------

  /** One, two, five, ten and thirty minutes, then an hour. */
  ghost function Backoff(attempts: int): (t: Time) {
    if attempts <= 1 then 60.0
    else if attempts == 2 then 120.0
    else if attempts == 3 then 300.0
    else if attempts == 4 then 600.0
    else if attempts == 5 then 1800.0
    else 3600.0
  }

  /** The seconds a 429 asks for. */
  ghost function Asked(reply: Option<Reply>): (seconds: Option<int>) {
    if reply.Some? && reply.value.Response? && reply.value.status == 429 then reply.value.retryAfter else None
  }

  ghost function Pause(attempts: int, asked: Option<int>, jitter: real): (t: Time) {
    if asked.Some? && asked.value as real > Backoff(attempts) * jitter then asked.value as real else Backoff(attempts) * jitter
  }

  lemma DelayIsPause(attempts: int, asked: Option<int>, jitter: real)
    ensures RetryDelay(attempts, asked, jitter) == Pause(attempts, asked, jitter)
  {
    var index := Min(Max(attempts, 1), 6) - 1;
    assert RETRY_DELAYS[index] == Backoff(attempts);
  }

  /** Every further attempt waits longer than the one before, whatever the jitter of each, up to
      the sixth; from there on the delays differ by the jitter alone and stay within it of an hour. */
  lemma DelaysGrow(a: int, b: int, jitter: real, other: real)
    requires 1 <= a < b && 0.85 <= jitter <= 1.15 && 0.85 <= other <= 1.15
    ensures a <= 5 ==> RetryDelay(a, None, jitter) < RetryDelay(b, None, other)
    ensures a >= 6 ==> RetryDelay(a, None, jitter) == 3600.0 * jitter && RetryDelay(b, None, other) == 3600.0 * other
    ensures 51.0 <= RetryDelay(a, None, jitter) <= 4140.0
  {
    DelayIsPause(a, None, jitter);
    DelayIsPause(b, None, other);
    assert a <= 5 ==> 2.0 * Backoff(a) <= Backoff(b);
    Scaled(Backoff(a), jitter);
    Scaled(Backoff(b), other);
  }

  lemma Scaled(t: Time, jitter: real)
    requires t >= 0.0 && 0.85 <= jitter <= 1.15
    ensures 0.85 * t <= t * jitter <= 1.15 * t
  {
    assert t * (jitter - 0.85) >= 0.0 && t * (1.15 - jitter) >= 0.0;
  }

  // ----- What a result writes -------------------------------------------------------------------------

  /** Replies worth another attempt: the bot did nothing, or may safely do it again. */
  ghost predicate Repeats(mode: Mode, reply: Option<Reply>) {
    && reply.Some?
    && match reply.value
       case Response(status, _) =>
         status == 429 || (mode == Idempotent && (status == 500 || status == 502 || status == 503 || status == 504))
       case ConnectError(_) => true
       case ConnectTimeout => true
       case PoolTimeout => true
       case OtherTransportError => mode == Idempotent
  }

  ghost predicate Accepts(reply: Option<Reply>) {
    reply.Some? && reply.value.Response? && 200 <= reply.value.status < 300
  }

  /** The reason code of a failed attempt. */
  ghost function CodeOf(reply: Option<Reply>): (r: Reason) {
    if reply.None? then InvalidConfiguration
    else match reply.value
      case Response(status, _) =>
        if status in {400, 401, 403, 404, 409, 422, 429, 500, 502, 503, 504} then HttpCode(status) else HttpOther
      case ConnectError(cause) => ConnectFailure(cause)
      case ConnectTimeout => ConnectFailure(ConnectOther)
      case PoolTimeout => ConnectFailure(ConnectOther)
      case OtherTransportError => TimeoutAmbiguous
  }

  ghost function HttpStatusOf(reply: Option<Reply>): (s: Option<int>) {
    if reply.Some? && reply.value.Response? then Some(reply.value.status) else None
  }

  /** The row in review, its claim ended. */
  ghost function Reviewed(p: Payment, why: Reason, now: Time): (q: Payment) {
    p.(status := ManualReview, reason := Some(why), manualReviewAt := Some(now), nextRetryAt := None,
       lastError := Some(ReviewError(why)), claimedAt := None, claimedBy := None)
  }

  /** The row an attempt leaves behind, by the reply it got. */
  ghost function Written(cfg: Config, p: Payment, reply: Option<Reply>, attempt: nat, now: Time, jitter: real): (q: Payment) {
    var r := p.(lastHttpStatus := HttpStatusOf(reply));
    if Accepts(reply) then
      r.(status := Accepted, reason := Some(NotifyAccepted), acceptedAt := Some(now), nextRetryAt := None,
         lastError := None, claimedAt := None, claimedBy := None)
    else if Repeats(cfg.mode, reply) && attempt < cfg.maxAttempts then
      r.(reason := Some(CodeOf(reply)), lastError := Some(RetryError(CodeOf(reply))),
         nextRetryAt := Some(now + Pause(attempt, Asked(reply), jitter)), claimedAt := None, claimedBy := None)
    else Reviewed(r, if Repeats(cfg.mode, reply) then RetryLimitReached else CodeOf(reply), now)
  }

  lemma KindOfReply(mode: Mode, reply: Option<Reply>)
    ensures var o, k := OutcomeOf(reply), EffectiveKind(mode, OutcomeOf(reply));
      && (k == KAccepted <==> Accepts(reply))
      && (k == KRetryable <==> Repeats(mode, reply))
      && (k == KAmbiguous ==> CodeOf(reply) == TimeoutAmbiguous)
      && (k != KAccepted ==> o.reason == CodeOf(reply))
      && o.httpStatus == HttpStatusOf(reply)
      && o.retryAfter == Asked(reply)
  {
  }

  /** Classifying the reply, downgrading it by mode and recording the outcome writes, in both
      modes and for every reply, exactly the row told from the reply itself. */
  lemma RecordedIsWritten(cfg: Config, p: Payment, reply: Option<Reply>, attempt: nat, now: Time, jitter: real)
    ensures Recorded(cfg, p, OutcomeOf(reply), attempt, now, jitter) == Written(cfg, p, reply, attempt, now, jitter)
  {
    KindOfReply(cfg.mode, reply);
    DelayIsPause(attempt, Asked(reply), jitter);
  }

  /** The row stale-claim recovery leaves behind. */
  ghost function Released(cfg: Config, p: Payment, now: Time, jitter: real): (q: Payment) {
    if cfg.mode == Idempotent && p.attempts < cfg.maxAttempts then
      p.(reason := Some(TimeoutAmbiguous), nextRetryAt := Some(now + Pause(p.attempts, None, jitter)),
         claimedAt := None, claimedBy := None)
    else Reviewed(p, if cfg.mode == Safe then TimeoutAmbiguous else RetryLimitReached, now)
  }

  lemma RecoveredIsReleased(cfg: Config, p: Payment, now: Time, jitter: real)
    ensures Recovered(cfg, p, now, jitter) == Released(cfg, p, now, jitter)
  {
    DelayIsPause(p.attempts, None, jitter);
  }

  // ----- What the queries look for -----------------------------------------------------------------------

  /** The instant a row waits for, NULL waiting for none. */
  ghost predicate NotBefore(at: Option<Time>, now: Time) {
    at.Some? ==> now >= at.value
  }

  /** No later in ascending order, NULL being last. */
  ghost predicate NoLater(a: Option<Time>, b: Option<Time>) {
    b.Some? ==> a.Some? && a.value <= b.value
  }

  /** A claim that has been held this long. */
  ghost predicate HeldFor(p: Payment, time: Time, now: Time) {
    p.status == Pending && p.claimedAt.Some? && now - p.claimedAt.value >= time
  }

  /** A payment the claim query may return: verified, pending, claimed by nobody, its retry
      time reached. */
  ghost predicate Claimable(p: Payment, now: Time) {
    p.status == Pending && p.verifiedAt.Some? && p.claimedAt.None? && NotBefore(p.nextRetryAt, now)
  }

  // ----- How long a claim is left to its worker ---------------------------------------------------------

  /** Step i of the run is the claim, taken at t, of attempt n. */
  ghost predicate ClaimedAt(cfg: Config, run: seq<Flow>, i: nat, n: nat, t: Time) {
    && i + 1 < |run|
    && run[i].row.attempts + 1 == n == run[i + 1].row.attempts
    && exists worker :: Enabled(cfg, run[i], Claim(worker, t)) && run[i + 1] == Apply(cfg, run[i], Claim(worker, t))
  }

  lemma ClaimKept(cfg: Config, f: Flow, a: Action)
    requires Enabled(cfg, f, a) && !a.Claim? && Apply(cfg, f, a).row.claimedAt.Some?
    ensures Apply(cfg, f, a).row.claimedAt == f.row.claimedAt && Apply(cfg, f, a).row.attempts == f.row.attempts
  {
  }

  /** A claim on the row was taken at some step, at the instant in its column. */
  lemma {:induction false} ClaimBegan(cfg: Config, run: seq<Flow>, k: nat) returns (i: nat)
    requires IsRun(cfg, run) && k < |run| && run[k].row.claimedAt.Some?
    ensures i < k && ClaimedAt(cfg, run, i, run[k].row.attempts, run[k].row.claimedAt.value)
  {
    assert Steps(cfg)(run[k - 1], run[k]);
    var a :| Enabled(cfg, run[k - 1], a) && run[k] == Apply(cfg, run[k - 1], a);
    if a.Claim? {
      i := k - 1;
      assert Apply(cfg, run[i], Claim(a.worker, a.at)) == run[i + 1];
    } else {
      ClaimKept(cfg, run[k - 1], a);
      i := ClaimBegan(cfg, run, k - 1);
    }
  }

  /** Over every run, stale-claim recovery can end a claim exactly from claim_timeout after the
      instant at which the attempt was claimed; before that it is the worker's. */
  lemma StaleOnlyAfterTimeout(cfg: Config, run: seq<Flow>, k: nat, now: Time, jitter: real)
    requires IsRun(cfg, run) && k < |run| && run[k].row.claimedAt.Some? && run[k].row.status == Pending
    ensures exists i: nat, t: Time ::
              && i < k && ClaimedAt(cfg, run, i, run[k].row.attempts, t)
              && (Enabled(cfg, run[k], ReleaseStale(now, jitter)) <==> now >= t + cfg.claimTimeout)
  {
    var i := ClaimBegan(cfg, run, k);
  }

  // ----- Which reviews the bulk requeue may pick up -------------------------------------------------------

  /** An attempt that leaves its payment to the bulk requeue: it ran out of attempts on a reply
      worth repeating or, in safe mode, got an ambiguous transport error. */
  ghost predicate LeavesToBulk(cfg: Config, reply: Option<Reply>, attempt: nat) {
    || (Repeats(cfg.mode, reply) && attempt >= cfg.maxAttempts)
    || (cfg.mode == Safe && reply == Some(OtherTransportError))
  }

  lemma EligibleAfterResult(cfg: Config, p: Payment, reply: Option<Reply>, attempt: nat, now: Time, jitter: real)
    requires p.status == Pending && p.verifiedAt.Some?
    ensures BulkEligible(Recorded(cfg, p, OutcomeOf(reply), attempt, now, jitter))
       <==> p.reviewResolvedAt.None? && LeavesToBulk(cfg, reply, attempt)
  {
    RecordedIsWritten(cfg, p, reply, attempt, now, jitter);
  }

  /** No other review qualifies: not one after another HTTP status, however often it came, nor
      without a notifier, nor for what CentralPay reported. */
  lemma OtherReviewsExcluded(cfg: Config, p: Payment, unpaid: Payment, status: int, retryAfter: Option<int>, event: string,
                             attempt: nat, now: Time, jitter: real)
    requires p.status == Pending && p.verifiedAt.Some? && unpaid.verifiedAt.None?
    requires status != 429 && (cfg.mode == Safe || (status != 500 && status != 502 && status != 503 && status != 504))
    ensures !BulkEligible(Recorded(cfg, p, OutcomeOf(Some(Response(status, retryAfter))), attempt, now, jitter))
    ensures !BulkEligible(Recorded(cfg, p, OutcomeOf(None), attempt, now, jitter))
    ensures !BulkEligible(Settled(unpaid, Mismatch(event), now))
  {
    EligibleAfterResult(cfg, p, Some(Response(status, retryAfter)), attempt, now, jitter);
    EligibleAfterResult(cfg, p, None, attempt, now, jitter);
  }

  /** The step puts the payment on the bulk list. */
  ghost predicate Lists(cfg: Config, f: Flow, a: Action) {
    && f.row.reviewResolvedAt.None? && f.row.claimedAt.Some?
    && match a
       case Record(n, _, _) => f.row.attempts == n && n in f.tokens && LeavesToBulk(cfg, f.tokens[n].reply, n)
       case ReleaseStale(_, _) => cfg.mode == Safe || f.row.attempts >= cfg.maxAttempts
       case _ => false
  }

  /** The step takes it off: by a requeue, or because an operator resolves the review. */
  ghost predicate Unlists(a: Action) {
    a.Resend? || a.BulkRequeue? || a.ResolveReview?
  }

  /** Whatever anybody does to a reachable payment, it is on the bulk list afterwards exactly when
      this step put it there, or it was there and this step did not take it off. */
  lemma EligibleStep(cfg: Config, f: Flow, a: Action)
    requires ValidConfig(cfg) && Reachable(cfg, f) && Enabled(cfg, f, a)
    ensures BulkEligible(Apply(cfg, f, a).row) <==> Lists(cfg, f, a) || (BulkEligible(f.row) && !Unlists(a))
  {
    ReachableInv(cfg, f);
    match a
    case Record(n, now, jitter) =>
      if OwnsClaim(f.row, f.tokens[n].worker, n) {
        EligibleAfterResult(cfg, f.row, f.tokens[n].reply, n, now, jitter);
      }
    case RecordUnconfigured(n, now, jitter) =>
      if OwnsClaim(f.row, f.tokens[n].worker, n) {
        EligibleAfterResult(cfg, f.row, None, n, now, jitter);
      }
    case ReleaseStale(now, jitter) => RecoveredIsReleased(cfg, f.row, now, jitter);
    case _ =>
  }
}
