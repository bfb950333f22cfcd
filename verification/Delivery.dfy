/** The notification delivery protocol (app/services/notification.py) for one
    payment row, with every actor that may touch it: link creation, settlement,
    workers that are slow or die at any point, stale-claim recovery and operators.

    `Flow` is the row plus history the program does not store: the live claims,
    the log of requests sent to the bot and counters. Every action is one committed
    transaction, or the one HTTP request made with no transaction open. */
module Delivery {
  import opened Common
  import opened Rows
  import opened BotOutcome
  import Lease
  import Runs

  datatype Config = Config(mode: Mode, maxAttempts: int, claimTimeout: Time)

  ghost predicate ValidConfig(cfg: Config) {
    cfg.maxAttempts > 0 && cfg.claimTimeout > 0.0
  }

  // ----- Row transitions ---------------------------------------------------------

  const RETRY_DELAYS: seq<real> := [60.0, 120.0, 300.0, 600.0, 1800.0, 3600.0]

  function RetryDelay(attemptsCompleted: int, retryAfter: Option<int>, jitter: real): (d: Time)
    ensures retryAfter.Some? ==> d >= retryAfter.value as real
    ensures jitter > 0.0 ==> d > 0.0
  {
    var index := Min(Max(attemptsCompleted, 1), |RETRY_DELAYS|) - 1;
    var delay := RETRY_DELAYS[index] * jitter;
    if retryAfter.Some? && retryAfter.value as real > delay then retryAfter.value as real else delay
  }

  function Queued(p: Payment, now: Time): (q: Payment) {
    p.(status := Pending, reason := None, nextRetryAt := Some(now))
  }

  function ClaimCleared(p: Payment): (q: Payment) {
    p.(claimedAt := None, claimedBy := None)
  }

  function WithClaim(p: Payment, worker: string, now: Time): (q: Payment) {
    p.(attempts := p.attempts + 1,
       claimedAt := Some(now),
       claimedBy := Some(worker),
       startedAt := if p.startedAt.None? then Some(now) else p.startedAt)
  }

  function AcceptedState(p: Payment, now: Time): (q: Payment) {
    ClaimCleared(p.(status := Accepted, reason := Some(NotifyAccepted), acceptedAt := Some(now),
                    nextRetryAt := None, lastError := None))
  }

  function InReview(p: Payment, reason: Reason, now: Time): (q: Payment) {
    ClaimCleared(p.(status := ManualReview, reason := Some(reason), manualReviewAt := Some(now),
                    nextRetryAt := None, lastError := Some(ReviewError(reason))))
  }

  function Requeued(p: Payment, now: Time): (q: Payment) {
    ClaimCleared(p.(status := Pending, nextRetryAt := Some(now)))
  }

  /** The claim-ownership guard of record_attempt_result. */
  predicate OwnsClaim(p: Payment, worker: string, attempt: nat) {
    p.status == Pending && p.claimedBy == Some(worker) && p.attempts == attempt
  }

  /** record_attempt_result on a row that still carries the claim. */
  function Recorded(cfg: Config, p: Payment, o: Outcome, attempt: nat, now: Time, jitter: real): (q: Payment) {
    var r := p.(lastHttpStatus := o.httpStatus);
    match EffectiveKind(cfg.mode, o)
    case KAccepted => AcceptedState(r, now)
    case KRetryable =>
      if attempt >= cfg.maxAttempts then InReview(r, RetryLimitReached, now)
      else ClaimCleared(r.(reason := Some(o.reason), lastError := Some(RetryError(o.reason)),
                           nextRetryAt := Some(now + RetryDelay(attempt, o.retryAfter, jitter))))
    case KAmbiguous => InReview(r, TimeoutAmbiguous, now)
    case KManual => InReview(r, o.reason, now)
  }

  predicate StaleClaim(cfg: Config, p: Payment, now: Time) {
    p.status == Pending && p.claimedAt.Some? && p.claimedAt.value <= now - cfg.claimTimeout
  }

  /** release_stale_claims on one row. */
  function Recovered(cfg: Config, p: Payment, now: Time, jitter: real): (q: Payment) {
    if cfg.mode == Idempotent && p.attempts >= cfg.maxAttempts then InReview(p, RetryLimitReached, now)
    else if cfg.mode == Idempotent then
      ClaimCleared(p.(reason := Some(TimeoutAmbiguous),
                      nextRetryAt := Some(now + RetryDelay(p.attempts, None, jitter))))
    else InReview(p, TimeoutAmbiguous, now)
  }

  predicate Due(p: Payment, now: Time) {
    && p.status == Pending
    && p.verifiedAt.Some?
    && (p.nextRetryAt.None? || p.nextRetryAt.value <= now)
    && p.claimedAt.None?
  }

  predicate AcceptableByHand(p: Payment) {
    p.status == Pending && p.verifiedAt.Some?
  }

  /** review resend: the row must be in manual review, verified, and the mode idempotent. */
  predicate Resendable(cfg: Config, p: Payment) {
    p.status == ManualReview && cfg.mode == Idempotent && p.verifiedAt.Some?
  }

  /** The bulk requeue predicate. */
  predicate BulkEligible(p: Payment) {
    && p.status == ManualReview
    && p.verifiedAt.Some?
    && p.reviewResolvedAt.None?
    && p.claimedAt.None?
    && (p.reason == Some(RetryLimitReached) || p.reason == Some(TimeoutAmbiguous))
  }

  /** What CentralPay's verify call and the checks on its answer conclude. */
  datatype Verdict =
    | TransportFailed(message: string)
    | NotPaid(message: string)
    | Mismatch(event: string)
    | Verified(reference: string)

  /** Every caller of verify_and_settle has checked this under the row lock. */
  predicate Unsettled(p: Payment) {
    p.verifiedAt.None? && p.status !in {GatewayVerified, Pending, Accepted, ManualReview}
  }

  function Settled(p: Payment, v: Verdict, now: Time): (q: Payment) {
    match v
    case TransportFailed(m) => p.(lastError := Some(GatewayError(m)))
    case NotPaid(m) => p.(lastError := Some(GatewayError(m)))
    case Mismatch(e) =>
      p.(status := ManualReview, manualReviewAt := Some(now), lastError := Some(GatewayError(e)))
    case Verified(r) =>
      Queued(p.(verifiedAt := Some(now), referenceId := Some(r), lastError := None), now)
  }

  /** create_payment calls getLink only in these states. */
  predicate Linkable(p: Payment) {
    p.verifiedAt.None? && (p.status == Created || p.status == GetLinkFailed)
  }

  // ----- What a reply leads to -------------------------------------------------------

  /** A reply worth another attempt: it proves the bot did nothing or, in idempotent mode, a
      second delivery would do no harm. */
  predicate Repeatable(mode: Mode, r: Reply) {
    || ProvablyUnprocessed(r)
    || (mode == Idempotent && (r.OtherTransportError? || (r.Response? && r.status in RETRYABLE_HTTP)))
  }

  /** From the bot's reply to the recorded row: accepted exactly on 2xx, queued again exactly
      when a repeatable reply left attempts over, and due then only after the delay; anything
      else goes to review, at the attempt limit with that reason. The claim always ends. */
  lemma ResultOfReply(cfg: Config, p: Payment, r: Reply, attempt: nat, now: Time, jitter: real, t: Time)
    requires p.status == Pending && p.verifiedAt.Some?
    ensures var q := Recorded(cfg, p, Classify(r), attempt, now, jitter);
      && q.claimedAt.None? && q.claimedBy.None? && q.attempts == p.attempts
      && (q.status == Accepted <==> r.Response? && 200 <= r.status < 300)
      && (q.status == Pending <==> Repeatable(cfg.mode, r) && attempt < cfg.maxAttempts)
      && (q.status != Accepted && q.status != Pending ==> q.status == ManualReview && q.manualReviewAt == Some(now))
      && (q.reason == Some(RetryLimitReached) <==> Repeatable(cfg.mode, r) && attempt >= cfg.maxAttempts)
      && (q.status == Pending ==> (Due(q, t) <==> t >= now + RetryDelay(attempt, Classify(r).retryAfter, jitter)))
  {
    SafeRetriesExactlyUnprocessed(r);
    IdempotentRetries(r);
  }

  // ----- The state machine ---------------------------------------------------------

  /** A claim some live worker process still holds in memory. */
  datatype Token = Token(worker: string, reply: Option<Reply>)

  datatype Sent = Sent(attempt: nat, reply: Reply)

  datatype Flow = Flow(
    row: Payment,
    tokens: map<nat, Token>,
    sends: seq<Sent>,
    settled: seq<nat>,
    claims: nat,
    requeues: nat,
    verifications: nat)

  datatype Action =
    | CreateLink(url: string, payer: Payer)
    | FailLink(message: string, payer: Payer)
    | SettlePayment(verdict: Verdict, at: Time)
    | Claim(worker: string, at: Time)
    | Send(attempt: nat, reply: Reply)
    | Record(attempt: nat, at: Time, jitter: real)
    | RecordUnconfigured(attempt: nat, at: Time, jitter: real)
    | Crash(attempt: nat)
    | ReleaseStale(at: Time, jitter: real)
    | ManualAccept(at: Time)
    | Resend(at: Time)
    | BulkRequeue(at: Time)
    | ResolveReview(at: Time)

  ghost predicate Enabled(cfg: Config, f: Flow, a: Action) {
    match a
    case CreateLink(url, _) => Linkable(f.row) && url != ""
    case FailLink(_, _) => Linkable(f.row)
    case SettlePayment(_, _) => Unsettled(f.row)
    case Claim(_, now) => Due(f.row, now)
    case Send(n, _) => n in f.tokens && f.tokens[n].reply.None?
    case Record(n, _, _) => n in f.tokens && f.tokens[n].reply.Some?
    case RecordUnconfigured(n, _, _) => n in f.tokens && f.tokens[n].reply.None?
    case Crash(n) => n in f.tokens
    case ReleaseStale(now, _) => StaleClaim(cfg, f.row, now)
    case ManualAccept(_) => AcceptableByHand(f.row)
    case Resend(_) => Resendable(cfg, f.row)
    case BulkRequeue(_) => cfg.mode == Idempotent && BulkEligible(f.row)
    case ResolveReview(_) => f.row.status == ManualReview
  }

  ghost function HeldAttempt(p: Payment): seq<nat> {
    if p.status == Pending && p.claimedAt.Some? then [p.attempts] else []
  }

  ghost function RecordStep(cfg: Config, f: Flow, n: nat, o: Outcome, now: Time, jitter: real): (g: Flow)
    requires n in f.tokens
  {
    var done := f.(tokens := f.tokens - {n});
    if OwnsClaim(f.row, f.tokens[n].worker, n) then
      done.(row := Recorded(cfg, f.row, o, n, now, jitter), settled := f.settled + [n])
    else done
  }

  ghost function Apply(cfg: Config, f: Flow, a: Action): (g: Flow)
    requires Enabled(cfg, f, a)
  {
    match a
    case CreateLink(url, payer) =>
      f.(row := f.row.(payer := payer, status := LinkCreated, redirectUrl := Some(url), lastError := None))
    case FailLink(m, payer) =>
      f.(row := f.row.(payer := payer, status := GetLinkFailed, lastError := Some(GatewayError(m))))
    case SettlePayment(v, now) =>
      f.(row := Settled(f.row, v, now),
         verifications := if v.Verified? then f.verifications + 1 else f.verifications)
    case Claim(w, now) =>
      var r := WithClaim(f.row, w, now);
      f.(row := r, tokens := f.tokens[r.attempts := Token(w, None)], claims := f.claims + 1)
    case Send(n, reply) =>
      f.(tokens := f.tokens[n := f.tokens[n].(reply := Some(reply))], sends := f.sends + [Sent(n, reply)])
    case Record(n, now, jitter) => RecordStep(cfg, f, n, Classify(f.tokens[n].reply.value), now, jitter)
    case RecordUnconfigured(n, now, jitter) => RecordStep(cfg, f, n, UNCONFIGURED, now, jitter)
    case Crash(n) => f.(tokens := f.tokens - {n})
    case ReleaseStale(now, jitter) =>
      f.(row := Recovered(cfg, f.row, now, jitter), settled := f.settled + [f.row.attempts])
    case ManualAccept(now) =>
      f.(row := AcceptedState(f.row, now), settled := f.settled + HeldAttempt(f.row))
    case Resend(now) => f.(row := Requeued(f.row, now), requeues := f.requeues + 1)
    case BulkRequeue(now) => f.(row := Requeued(f.row, now), requeues := f.requeues + 1)
    case ResolveReview(now) => f.(row := f.row.(reviewResolvedAt := Some(now)))
  }

  ghost predicate Init(f: Flow) {
    && Fresh(f.row)
    && f == Flow(f.row, map[], [], [], 0, 0, 0)
  }

  ghost predicate Next(cfg: Config, f: Flow, g: Flow) {
    exists a :: Enabled(cfg, f, a) && g == Apply(cfg, f, a)
  }

  ghost function Start(): (p: Flow -> bool) {
    f => Init(f)
  }

  ghost function Steps(cfg: Config): (p: (Flow, Flow) -> bool) {
    (f, g) => Next(cfg, f, g)
  }

  ghost predicate IsRun(cfg: Config, run: seq<Flow>) {
    Runs.IsRun(Start(), Steps(cfg), run)
  }

  ghost predicate Reachable(cfg: Config, f: Flow) {
    Runs.Reachable(Start(), Steps(cfg), f)
  }

  // ----- Invariants in both modes ---------------------------------------------------

  /** Facts about the row alone: claims, verification and status agree. */
  ghost predicate RowInv(p: Payment) {
    && (p.claimedAt.Some? <==> p.claimedBy.Some?)
    && (p.claimedAt.Some? ==> p.status == Pending)
    && (p.status == Pending || p.status == Accepted ==> p.verifiedAt.Some?)
    && (p.verifiedAt.Some? ==> p.status in {Pending, Accepted, ManualReview})
    && (p.verifiedAt.Some? <==> p.referenceId.Some?)
    && (p.verifiedAt.None? ==> p.attempts == 0)
    && (p.claimedAt.Some? ==> p.attempts >= 1)
    && (p.redirectUrl.Some? ==> p.status !in {Created, GetLinkFailed})
    && (p.status == LinkCreated ==> p.redirectUrl.Some?)
    && p.status != GatewayVerified
  }

  /** A token exists only for an attempt that was claimed; the token of the current
      attempt belongs to the worker named in the row. */
  ghost predicate TokenInv(f: Flow) {
    && (forall n | n in f.tokens :: 1 <= n <= f.row.attempts)
    && (f.row.claimedBy.Some? && f.row.attempts in f.tokens
        ==> f.tokens[f.row.attempts].worker == f.row.claimedBy.value)
  }

  /** Each attempt is sent at most once, by its own token. */
  ghost predicate SendInv(f: Flow) {
    && (forall i | 0 <= i < |f.sends| :: 1 <= f.sends[i].attempt <= f.row.attempts)
    && (forall i, j | 0 <= i < j < |f.sends| :: f.sends[i].attempt != f.sends[j].attempt)
    && (forall i | 0 <= i < |f.sends| ::
          f.sends[i].attempt in f.tokens ==> f.tokens[f.sends[i].attempt].reply == Some(f.sends[i].reply))
  }

  ghost predicate CountInv(cfg: Config, f: Flow) {
    && f.claims == f.row.attempts
    && f.verifications == (if f.row.verifiedAt.Some? then 1 else 0)
    && f.claims <= cfg.maxAttempts + f.requeues
    && (f.row.status == Pending && f.row.claimedAt.None? ==> f.claims < cfg.maxAttempts + f.requeues)
    && (f.row.verifiedAt.None? ==> f.requeues == 0)
  }

  ghost predicate Inv(cfg: Config, f: Flow) {
    RowInv(f.row) && TokenInv(f) && SendInv(f) && CountInv(cfg, f)
  }

  lemma RowInvStep(cfg: Config, f: Flow, a: Action)
    requires RowInv(f.row) && Enabled(cfg, f, a)
    ensures RowInv(Apply(cfg, f, a).row)
  {
  }

  lemma TokenInvStep(cfg: Config, f: Flow, a: Action)
    requires RowInv(f.row) && TokenInv(f) && Enabled(cfg, f, a)
    ensures TokenInv(Apply(cfg, f, a))
  {
  }

  lemma SendInvSend(cfg: Config, f: Flow, n: nat, reply: Reply)
    requires TokenInv(f) && SendInv(f) && Enabled(cfg, f, Send(n, reply))
    ensures SendInv(Apply(cfg, f, Send(n, reply)))
  {
    forall i | 0 <= i < |f.sends| ensures f.sends[i].attempt != n {
    }
  }

  lemma SendInvStep(cfg: Config, f: Flow, a: Action)
    requires RowInv(f.row) && TokenInv(f) && SendInv(f) && Enabled(cfg, f, a)
    ensures SendInv(Apply(cfg, f, a))
  {
    if a.Send? {
      SendInvSend(cfg, f, a.attempt, a.reply);
    } else {
      assert Apply(cfg, f, a).sends == f.sends && Apply(cfg, f, a).row.attempts >= f.row.attempts;
    }
  }

  lemma CountInvStep(cfg: Config, f: Flow, a: Action)
    requires ValidConfig(cfg) && RowInv(f.row) && TokenInv(f) && CountInv(cfg, f) && Enabled(cfg, f, a)
    ensures CountInv(cfg, Apply(cfg, f, a))
  {
  }

  lemma InvStep(cfg: Config, f: Flow, g: Flow)
    requires ValidConfig(cfg) && Inv(cfg, f) && Next(cfg, f, g)
    ensures Inv(cfg, g)
  {
    var a :| Enabled(cfg, f, a) && g == Apply(cfg, f, a);
    RowInvStep(cfg, f, a);
    TokenInvStep(cfg, f, a);
    SendInvStep(cfg, f, a);
    CountInvStep(cfg, f, a);
  }

  ghost function Invariant(cfg: Config): (p: Flow -> bool) {
    f => Inv(cfg, f)
  }

  lemma InvInductive(cfg: Config)
    requires ValidConfig(cfg)
    ensures Runs.Inductive(Start(), Steps(cfg), Invariant(cfg))
  {
    forall f, g | Inv(cfg, f) && Next(cfg, f, g) ensures Inv(cfg, g) {
      InvStep(cfg, f, g);
    }
  }

  lemma RunInv(cfg: Config, run: seq<Flow>, k: nat)
    requires ValidConfig(cfg) && IsRun(cfg, run) && k < |run|
    ensures Inv(cfg, run[k])
  {
    InvInductive(cfg);
    Runs.Always(Start(), Steps(cfg), Invariant(cfg), run, k);
  }

  lemma ReachableInv(cfg: Config, f: Flow)
    requires ValidConfig(cfg) && Reachable(cfg, f)
    ensures Inv(cfg, f)
  {
    InvInductive(cfg);
    Runs.ReachableInv(Start(), Steps(cfg), Invariant(cfg), f);
  }

  // ----- Bounded delivery --------------------------------------------------------------

  /** In both modes, also when workers die on every attempt: the payment is claimed at
      most max_attempts times plus once per operator requeue, a waiting row has a claim
      left, and no attempt is ever sent twice. */
  lemma BoundedDelivery(cfg: Config, run: seq<Flow>, k: nat)
    requires ValidConfig(cfg) && IsRun(cfg, run) && k < |run|
    ensures run[k].claims <= cfg.maxAttempts + run[k].requeues
    ensures run[k].row.status == Pending && run[k].row.claimedAt.None?
            ==> run[k].claims < cfg.maxAttempts + run[k].requeues
    ensures |run[k].sends| <= run[k].claims
  {
    RunInv(cfg, run, k);
    SendsBounded(run[k]);
  }

  lemma SendsBounded(f: Flow)
    requires SendInv(f)
    ensures |f.sends| <= f.row.attempts
  {
    DistinctBounded(seq(|f.sends|, i requires 0 <= i < |f.sends| => f.sends[i].attempt), f.row.attempts);
  }

  // ----- Life cycle -----------------------------------------------------------------------

  lemma LifeCycleAction(cfg: Config, f: Flow, a: Action)
    requires RowInv(f.row) && Enabled(cfg, f, a)
    ensures var g := Apply(cfg, f, a);
      && (f.row.verifiedAt.Some? ==> g.row.verifiedAt == f.row.verifiedAt)
      && (f.row.referenceId.Some? ==> g.row.referenceId == f.row.referenceId)
      && (f.row.status == Accepted ==> g.row.status == Accepted)
      && (f.row.status == ManualReview && g.row.status != ManualReview ==>
            Resendable(cfg, f.row) && g.row.status == Pending && g.requeues == f.requeues + 1)
      && (g.row.status == LinkCreated && f.row.status != LinkCreated ==> Linkable(f.row))
  {
  }

  lemma IssueKept(cfg: Config, f: Flow, a: Action)
    requires RowInv(f.row) && Enabled(cfg, f, a)
    ensures var g := Apply(cfg, f, a);
      && SameCharge(f.row, g.row)
      && (!Linkable(f.row) ==> !Linkable(g.row))
      && (!Linkable(f.row) || !(a.CreateLink? || a.FailLink?) ==> SameIssue(f.row, g.row))
  {
  }

  /** One step: the verification instant and the reference id that came with it are never
      rewritten or cleared, acceptance is final, and manual review is left only by an idempotent-mode requeue of a verified
      payment. The amounts never change, nor do payer and link once no link can be issued. */
  lemma LifeCycleStep(cfg: Config, f: Flow, g: Flow)
    requires RowInv(f.row) && Next(cfg, f, g)
    ensures f.row.verifiedAt.Some? ==> g.row.verifiedAt == f.row.verifiedAt
    ensures f.row.referenceId.Some? ==> g.row.referenceId == f.row.referenceId
    ensures f.row.status == Accepted ==> g.row.status == Accepted
    ensures f.row.status == ManualReview && g.row.status != ManualReview
            ==> cfg.mode == Idempotent && f.row.verifiedAt.Some? && g.row.status == Pending
                && g.requeues == f.requeues + 1
    ensures g.row.status == LinkCreated && f.row.status != LinkCreated ==> Linkable(f.row)
    ensures !Linkable(f.row) ==> !Linkable(g.row) && SameIssue(f.row, g.row)
    ensures SameCharge(f.row, g.row)
  {
    var a :| Enabled(cfg, f, a) && g == Apply(cfg, f, a);
    LifeCycleAction(cfg, f, a);
    IssueKept(cfg, f, a);
  }

  ghost function KeepsFacts(cfg: Config): (p: (Flow, Flow) -> bool) {
    (f: Flow, g: Flow) =>
      && (f.row.verifiedAt.Some? ==> g.row.verifiedAt == f.row.verifiedAt)
      && (f.row.referenceId.Some? ==> g.row.referenceId == f.row.referenceId)
      && (f.row.status == Accepted ==> g.row.status == Accepted)
      && (cfg.mode == Safe && f.row.status == ManualReview ==> g.row.status == ManualReview)
      && SameCharge(f.row, g.row)
      && (!Linkable(f.row) ==> !Linkable(g.row) && SameIssue(f.row, g.row))
  }

  /** Over every run: verified once and for ever, on one reference id that is stored exactly while
      the payment is verified and never changes; accepted for ever, in safe mode in review
      for ever, and the issued link with its amount and payer is frozen. */
  lemma LifeCycleRun(cfg: Config, run: seq<Flow>, j: nat, k: nat)
    requires ValidConfig(cfg) && IsRun(cfg, run) && j <= k < |run|
    ensures run[j].row.verifiedAt.Some? ==> run[k].row.verifiedAt == run[j].row.verifiedAt
    ensures run[k].row.verifiedAt.Some? <==> run[k].row.referenceId.Some?
    ensures run[j].row.referenceId.Some? ==> run[k].row.referenceId == run[j].row.referenceId
    ensures run[j].row.status == Accepted ==> run[k].row.status == Accepted
    ensures cfg.mode == Safe && run[j].row.status == ManualReview ==> run[k].row.status == ManualReview
    ensures SameCharge(run[j].row, run[k].row)
    ensures !Linkable(run[j].row) || run[j].row.redirectUrl.Some? ==> SameIssue(run[j].row, run[k].row)
    ensures run[k].verifications <= 1
  {
    InvInductive(cfg);
    forall f, g, h | Inv(cfg, g) && KeepsFacts(cfg)(f, g) && Next(cfg, g, h) ensures KeepsFacts(cfg)(f, h) {
      LifeCycleStep(cfg, g, h);
    }
    Runs.Onward(Start(), Steps(cfg), Invariant(cfg), KeepsFacts(cfg), run, j, k);
    Runs.Always(Start(), Steps(cfg), Invariant(cfg), run, j);
    Runs.Always(Start(), Steps(cfg), Invariant(cfg), run, k);
  }

  datatype RecoveryRefusal = ReviewOwned | AlreadyVerified | NotLinkCreated | NotAgedOut

  /** determine_recovery_refusal; `agedOut` is the reconciliation age test. */
  function RecoveryRefused(p: Payment, agedOut: bool): (r: Option<RecoveryRefusal>) {
    if p.status == ManualReview then Some(ReviewOwned)
    else if p.status in {GatewayVerified, Pending, Accepted} || p.verifiedAt.Some? then Some(AlreadyVerified)
    else if p.status != LinkCreated then Some(NotLinkCreated)
    else if !agedOut then Some(NotAgedOut)
    else None
  }

  /** Duplicate-downstream safety: a payment that aged-out recovery admits has never been
      queued, claimed or sent to the bot, in any run, and settling it is allowed. */
  lemma RecoveryNeverResends(cfg: Config, run: seq<Flow>, k: nat, agedOut: bool)
    requires ValidConfig(cfg) && IsRun(cfg, run) && k < |run|
    requires RecoveryRefused(run[k].row, agedOut).None?
    ensures Unsettled(run[k].row)
    ensures forall j | 0 <= j <= k ::
              run[j].claims == 0 && run[j].sends == [] && run[j].tokens == map[]
              && run[j].row.status !in {Pending, Accepted}
  {
    forall j | 0 <= j <= k
      ensures run[j].claims == 0 && run[j].sends == [] && run[j].tokens == map[]
              && run[j].row.status !in {Pending, Accepted}
    {
      LifeCycleRun(cfg, run, j, k);
      RunInv(cfg, run, j);
      NothingBeforeVerification(cfg, run[j]);
    }
  }

  /** Aged-out recovery admits, of the payments that can exist, exactly those that have a link,
      are old enough and nothing more; each other one is refused for what it is. */
  lemma RecoveryExactly(cfg: Config, f: Flow, agedOut: bool)
    requires ValidConfig(cfg) && Reachable(cfg, f)
    ensures RecoveryRefused(f.row, agedOut).None? <==> f.row.status == LinkCreated && agedOut
    ensures RecoveryRefused(f.row, agedOut) == Some(ReviewOwned) <==> f.row.status == ManualReview
    ensures RecoveryRefused(f.row, agedOut) == Some(AlreadyVerified) <==> f.row.status == Pending || f.row.status == Accepted
    ensures RecoveryRefused(f.row, agedOut) == Some(NotLinkCreated) <==> f.row.status == Created || f.row.status == GetLinkFailed
  {
    ReachableInv(cfg, f);
  }

  lemma NothingBeforeVerification(cfg: Config, f: Flow)
    requires Inv(cfg, f) && f.row.verifiedAt.None?
    ensures f.claims == 0 && f.sends == [] && f.tokens == map[]
  {
    SendsBounded(f);
    assert forall n :: n !in f.tokens;
  }

  // ----- Lease refinement -------------------------------------------------------------------

  ghost function AsLease(f: Flow): (s: Lease.State) {
    Lease.State(
      if f.row.status != Pending then Lease.Closed
      else if f.row.claimedBy.Some? then Lease.Held(f.row.claimedBy.value)
      else Lease.Idle,
      f.row.attempts,
      f.settled)
  }

  lemma RefinesLeaseRecord(cfg: Config, f: Flow, n: nat, o: Outcome, now: Time, jitter: real)
    requires RowInv(f.row) && n in f.tokens
    ensures var s, t := AsLease(f), AsLease(RecordStep(cfg, f, n, o, now, jitter));
            if OwnsClaim(f.row, f.tokens[n].worker, n) then Lease.Settle(s, t) else s == t
  {
  }

  lemma RefinesLeaseAction(cfg: Config, f: Flow, a: Action)
    requires RowInv(f.row) && TokenInv(f) && Enabled(cfg, f, a)
    ensures Lease.Next(AsLease(f), AsLease(Apply(cfg, f, a)))
  {
    match a
    case Record(n, now, jitter) =>
      RefinesLeaseRecord(cfg, f, n, Classify(f.tokens[n].reply.value), now, jitter);
    case RecordUnconfigured(n, now, jitter) =>
      RefinesLeaseRecord(cfg, f, n, UNCONFIGURED, now, jitter);
    case ManualAccept(_) => assert f.settled + [] == f.settled;
    case _ =>
  }

  ghost function LeaseRun(run: seq<Flow>): (s: seq<Lease.State>)
    ensures |s| == |run|
    ensures forall i | 0 <= i < |run| :: s[i] == AsLease(run[i])
  {
    seq(|run|, i requires 0 <= i < |run| => AsLease(run[i]))
  }

  /** Every run of the delivery protocol is a run of the abstract lease. */
  lemma RefinesLease(cfg: Config, run: seq<Flow>)
    requires ValidConfig(cfg) && IsRun(cfg, run)
    ensures Lease.IsRun(LeaseRun(run))
  {
    InvInductive(cfg);
    var abs := (f: Flow) => AsLease(f);
    forall f, g | Inv(cfg, f) && Next(cfg, f, g) ensures Lease.Next(AsLease(f), AsLease(g)) {
      var a :| Enabled(cfg, f, a) && g == Apply(cfg, f, a);
      RefinesLeaseAction(cfg, f, a);
    }
    Runs.MapRun(Start(), Steps(cfg), Invariant(cfg), run, abs, Lease.Start(), Lease.Steps(), LeaseRun(run));
  }

  /** Over every run: no attempt is settled twice (by its own result, stale recovery or
      manual acceptance), and settlements are never withdrawn. */
  lemma AttemptSettledAtMostOnce(cfg: Config, run: seq<Flow>, j: nat, k: nat)
    requires ValidConfig(cfg) && IsRun(cfg, run) && j <= k < |run|
    ensures Distinct(run[k].settled) && run[j].settled <= run[k].settled
  {
    RefinesLease(cfg, run);
    Lease.SettledAtMostOnce(LeaseRun(run), j, k);
  }

  /** A result is applied exactly when its own claim is the one still held; a late result
      leaves the row untouched even if the same worker id has claimed the row again. */
  lemma LateResultDiscarded(cfg: Config, f: Flow, a: Action)
    requires ValidConfig(cfg) && Reachable(cfg, f) && Enabled(cfg, f, a)
    requires a.Record? || a.RecordUnconfigured?
    ensures OwnsClaim(f.row, f.tokens[a.attempt].worker, a.attempt)
       <==> f.row.claimedBy.Some? && f.row.attempts == a.attempt
    ensures a.attempt in f.settled ==> Apply(cfg, f, a).row == f.row && Apply(cfg, f, a).settled == f.settled
    ensures a.attempt != f.row.attempts ==> Apply(cfg, f, a).row == f.row
  {
    ReachableInv(cfg, f);
    var run :| Runs.IsRun(Start(), Steps(cfg), run) && run[|run| - 1] == f;
    RefinesLease(cfg, run);
    Lease.SettledAtMostOnce(LeaseRun(run), |run| - 1, |run| - 1);
  }

  // ----- Safe mode --------------------------------------------------------------------------

  /** In safe mode at most the newest attempt can still be in a worker's hands, a waiting
      row has none, and everything sent under an older attempt proved unprocessed. */
  ghost predicate SafeInv(f: Flow) {
    && f.requeues == 0
    && (forall n | n in f.tokens :: n == f.row.attempts)
    && (f.row.status == Pending && f.row.claimedAt.None? ==> f.tokens == map[])
    && (forall i | 0 <= i < |f.sends| ::
          f.sends[i].attempt < f.row.attempts || (f.row.status == Pending && f.row.claimedAt.None?)
          ==> ProvablyUnprocessed(f.sends[i].reply))
    && (forall i, j | 0 <= i < j < |f.sends| :: f.sends[i].attempt < f.sends[j].attempt)
  }

  lemma SafeInvRecord(cfg: Config, f: Flow, a: Action)
    requires cfg.mode == Safe && RowInv(f.row) && TokenInv(f) && SendInv(f) && SafeInv(f)
    requires Enabled(cfg, f, a) && (a.Record? || a.RecordUnconfigured?)
    ensures SafeInv(Apply(cfg, f, a))
  {
    var g := Apply(cfg, f, a);
    assert a.attempt == f.row.attempts;
    assert g.tokens == map[] by {
      assert forall n | n in f.tokens :: n == a.attempt;
    }
    if a.Record? {
      SafeRetriesExactlyUnprocessed(f.tokens[a.attempt].reply.value);
    }
    assert forall i | 0 <= i < |f.sends| && f.sends[i].attempt == a.attempt ::
        f.tokens[a.attempt].reply == Some(f.sends[i].reply);
  }

  /** A claim that has not sent yet is the newest, so everything sent before it was refused. */
  lemma AllEarlierUnprocessed(cfg: Config, f: Flow, a: Action)
    requires cfg.mode == Safe && SendInv(f) && SafeInv(f)
    requires Enabled(cfg, f, a) && a.Send?
    ensures forall i | 0 <= i < |f.sends| ::
              f.sends[i].attempt < a.attempt && ProvablyUnprocessed(f.sends[i].reply)
  {
  }

  lemma SafeInvSend(cfg: Config, f: Flow, a: Action)
    requires cfg.mode == Safe && RowInv(f.row) && TokenInv(f) && SendInv(f) && SafeInv(f)
    requires Enabled(cfg, f, a) && a.Send?
    ensures SafeInv(Apply(cfg, f, a))
  {
    AllEarlierUnprocessed(cfg, f, a);
  }

  lemma SafeInvOther(cfg: Config, f: Flow, a: Action)
    requires cfg.mode == Safe && RowInv(f.row) && TokenInv(f) && SendInv(f) && SafeInv(f)
    requires Enabled(cfg, f, a) && !a.Send? && !a.Record? && !a.RecordUnconfigured?
    ensures SafeInv(Apply(cfg, f, a))
  {
    var g := Apply(cfg, f, a);
    if a.SettlePayment? {
      assert f.row.attempts == 0;
      assert forall n :: n !in f.tokens;
      SendsBounded(f);
    }
  }

  ghost function SafeInvariant(cfg: Config): (p: Flow -> bool) {
    f => Inv(cfg, f) && SafeInv(f)
  }

  lemma SafeInvInductive(cfg: Config)
    requires ValidConfig(cfg) && cfg.mode == Safe
    ensures Runs.Inductive(Start(), Steps(cfg), SafeInvariant(cfg))
  {
    forall f, g | Inv(cfg, f) && SafeInv(f) && Next(cfg, f, g) ensures Inv(cfg, g) && SafeInv(g) {
      InvStep(cfg, f, g);
      var a :| Enabled(cfg, f, a) && g == Apply(cfg, f, a);
      SafeInvStep(cfg, f, a);
    }
  }

  lemma SafeInvStep(cfg: Config, f: Flow, a: Action)
    requires cfg.mode == Safe && Inv(cfg, f) && SafeInv(f) && Enabled(cfg, f, a)
    ensures SafeInv(Apply(cfg, f, a))
  {
    if a.Send? {
      SafeInvSend(cfg, f, a);
    } else if a.Record? || a.RecordUnconfigured? {
      SafeInvRecord(cfg, f, a);
    } else {
      SafeInvOther(cfg, f, a);
    }
  }

  /** A request the bot may have processed. */
  predicate Risky(s: Sent) {
    !ProvablyUnprocessed(s.reply)
  }

  /** Safe mode, over every interleaving of workers, crashes, late sends, stale-claim
      recovery and operator actions: only the last request ever sent can have been
      processed by the bot, and once it has been sent the payment is either still held
      by that very claim or has left the queue. */
  lemma SafeModeAtMostOnce(cfg: Config, run: seq<Flow>, k: nat)
    requires ValidConfig(cfg) && cfg.mode == Safe && IsRun(cfg, run) && k < |run|
    ensures forall i | 0 <= i < |run[k].sends| && Risky(run[k].sends[i]) ::
              && i == |run[k].sends| - 1
              && run[k].sends[i].attempt == run[k].row.attempts
              && ((run[k].row.status == Pending && run[k].row.claimedAt.Some?)
                  || run[k].row.status in {Accepted, ManualReview})
  {
    SafeInvInductive(cfg);
    Runs.Always(Start(), Steps(cfg), SafeInvariant(cfg), run, k);
    var f := run[k];
    forall i | 0 <= i < |f.sends| && Risky(f.sends[i])
      ensures i == |f.sends| - 1
      ensures f.sends[i].attempt == f.row.attempts
      ensures (f.row.status == Pending && f.row.claimedAt.Some?) || f.row.status in {Accepted, ManualReview}
    {
      var last := f.sends[|f.sends| - 1];
      assert last.attempt <= f.row.attempts <= f.sends[i].attempt;
    }
  }

  /** After a request the bot may have processed (the i-th), nothing is ever sent again. */
  lemma SafeModeNoFurtherSend(cfg: Config, run: seq<Flow>, j: nat, k: nat, i: nat)
    requires ValidConfig(cfg) && cfg.mode == Safe && IsRun(cfg, run) && j <= k < |run|
    requires i < |run[j].sends| && Risky(run[j].sends[i])
    ensures run[k].sends == run[j].sends
  {
    SafeInvInductive(cfg);
    var rel := (f: Flow, g: Flow) => i < |f.sends| && Risky(f.sends[i]) ==> g.sends == f.sends;
    forall f, g, h | Inv(cfg, g) && SafeInv(g) && rel(f, g) && Next(cfg, g, h) ensures rel(f, h) {
      var a :| Enabled(cfg, g, a) && h == Apply(cfg, g, a);
      if a.Send? {
        AllEarlierUnprocessed(cfg, g, a);
      }
    }
    Runs.Onward(Start(), Steps(cfg), SafeInvariant(cfg), rel, run, j, k);
  }
}
