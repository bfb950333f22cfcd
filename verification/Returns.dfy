/** The worker a bulk requeue wakes (app/services/notification.py, app/services/bulk_resend.py): a
    requeued payment that has used its attempts gets one more, and fails back into eligibility. */
module Returns {
  import opened Common
  import opened Rows
  import opened BotOutcome
  import opened Delivery
  import opened Attempts
  import Snapshot
  import Runs

  lemma Took(cfg: Config, f: Flow, a: Action) returns (g: Flow)
    requires Reachable(cfg, f) && Enabled(cfg, f, a)
    ensures Reachable(cfg, g) && g == Apply(cfg, f, a)
  {
    g := Apply(cfg, f, a);
    Runs.StepReachable(Start(), Steps(cfg), f, g);
  }

  /** Verified and never resolved, with these attempts and requeues so far. */
  ghost predicate Counts(f: Flow, attempts: nat, requeues: nat) {
    f.row.attempts == attempts && f.requeues == requeues && f.row.verifiedAt.Some? && f.row.reviewResolvedAt.None?
  }

  /** A payment that has just been verified. */
  lemma Queued0(cfg: Config) returns (f: Flow)
    requires ValidConfig(cfg)
    ensures Reachable(cfg, f) && Counts(f, 0, 0) && Due(f.row, 0.0)
  {
    var payer := Payer(0, TelegramUser, 1);
    var row := Payment("order", 0.0, Money(100, 0, 0, 100), payer, Created, None, None, None, None, None, 0,
                       None, None, None, None, None, None, None, None);
    f := Flow(row, map[], [], [], 0, 0, 0);
    Runs.InitReachable(Start(), Steps(cfg), f);
    f := Took(cfg, f, CreateLink("link", payer));
    f := Took(cfg, f, SettlePayment(Verified("reference"), 0.0));
  }

  /** Claimed, answered with 500 and not yet recorded. */
  lemma Refused(cfg: Config, f: Flow, now: Time) returns (g: Flow)
    requires ValidConfig(cfg) && Reachable(cfg, f) && Due(f.row, now) && Counts(f, f.row.attempts, f.requeues)
    ensures Reachable(cfg, g) && Counts(g, f.row.attempts + 1, f.requeues)
    ensures g.row.status == Pending && g.row.claimedBy == Some("worker")
    ensures g.row.attempts in g.tokens && g.tokens[g.row.attempts] == Token("worker", Some(Response(500, None)))
  {
    var n := f.row.attempts + 1;
    g := Took(cfg, f, Claim("worker", now));
    g := Took(cfg, g, Send(n, Response(500, None)));
  }

  /** The failed attempt is recorded: another one is scheduled, or the payment is eligible. */
  lemma Failed(cfg: Config, f: Flow, now: Time) returns (g: Flow, later: Time)
    requires ValidConfig(cfg) && cfg.mode == Idempotent
    requires Reachable(cfg, f) && Due(f.row, now) && Counts(f, f.row.attempts, f.requeues)
    ensures Reachable(cfg, g) && Counts(g, f.row.attempts + 1, f.requeues)
    ensures if g.row.attempts < cfg.maxAttempts then Due(g.row, later) else BulkEligible(g.row)
  {
    var sent := Refused(cfg, f, now);
    var n := sent.row.attempts;
    var reply := Response(500, None);
    assert OwnsClaim(sent.row, "worker", n);
    g := Took(cfg, sent, Record(n, now, 1.0));
    later := now + RetryDelay(n, None, 1.0);
    ResultOfReply(cfg, sent.row, reply, n, now, 1.0, later);
    assert g.row == Recorded(cfg, sent.row, Classify(reply), n, now, 1.0);
  }

  /** A payment with a attempts used and more left. */
  lemma {:induction false} Failing(cfg: Config, a: nat) returns (f: Flow, now: Time)
    requires ValidConfig(cfg) && cfg.mode == Idempotent && a < cfg.maxAttempts
    ensures Reachable(cfg, f) && Counts(f, a, 0) && Due(f.row, now)
  {
    if a == 0 {
      f := Queued0(cfg);
      now := 0.0;
    } else {
      f, now := Failing(cfg, a - 1);
      f, now := Failed(cfg, f, now);
    }
  }

  /** In idempotent mode a payment can be requeued in bulk any number of times: after every one
      its single further attempt fails and it is eligible again, attempts growing by one. */
  lemma {:induction false} EligibleAgain(cfg: Config, n: nat) returns (f: Flow)
    requires ValidConfig(cfg) && cfg.mode == Idempotent
    ensures Reachable(cfg, f) && BulkEligible(f.row) && Counts(f, cfg.maxAttempts + n, n)
  {
    var now: Time;
    if n == 0 {
      f, now := Failing(cfg, cfg.maxAttempts - 1);
      f, now := Failed(cfg, f, now);
    } else {
      f := EligibleAgain(cfg, n - 1);
      f := Took(cfg, f, BulkRequeue(0.0));
      f, now := Failed(cfg, f, 0.0);
    }
  }

  /** From there an operator may take the payment out of the bulk requeue's hands: `review resolve`
      closes the review, and it is eligible no more. */
  lemma ResolvedIsGone(cfg: Config, n: nat) returns (f: Flow, g: Flow)
    requires ValidConfig(cfg) && cfg.mode == Idempotent
    ensures Reachable(cfg, f) && BulkEligible(f.row) && Next(cfg, f, g)
    ensures Reachable(cfg, g) && g.requeues == f.requeues && !BulkEligible(g.row)
  {
    f := EligibleAgain(cfg, n);
    g := Took(cfg, f, ResolveReview(0.0));
  }

  /** `review resend` takes it away too, and the worker may fail it back: eligible again with no
      bulk requeue in between. */
  lemma ResentAndBack(cfg: Config, n: nat) returns (f: Flow, sent: Flow, g: Flow)
    requires ValidConfig(cfg) && cfg.mode == Idempotent
    ensures Reachable(cfg, f) && BulkEligible(f.row)
    ensures Enabled(cfg, f, Resend(0.0)) && sent == Apply(cfg, f, Resend(0.0)) && !BulkEligible(sent.row)
    ensures Reachable(cfg, g) && BulkEligible(g.row) && Counts(g, sent.row.attempts + 1, sent.requeues)
  {
    f := EligibleAgain(cfg, n);
    sent := Took(cfg, f, Resend(0.0));
    var later: Time;
    g, later := Failed(cfg, sent, 0.0);
  }

  // ----- A review that comes back after it was resolved ------------------------------------------------

  lemma ResolutionKept(cfg: Config, f: Flow, g: Flow)
    requires Next(cfg, f, g) && f.row.reviewResolvedAt.Some?
    ensures g.row.reviewResolvedAt.Some?
  {
  }

  /** Over every run a resolution is never taken back: once a review of a payment was resolved, no
      later review of it is on the open list or within reach of the bulk requeue. A payment in
      review is listed exactly when no review of it was resolved before. */
  lemma ResolvedForGood(cfg: Config, run: seq<Flow>, k: nat)
    requires ValidConfig(cfg) && IsRun(cfg, run) && k < |run|
    ensures (exists j :: 0 <= j <= k && run[j].row.reviewResolvedAt.Some?) <==> run[k].row.reviewResolvedAt.Some?
    ensures run[k].row.status == ManualReview ==>
              (Snapshot.OpenReview(run[k].row) <==> forall j | 0 <= j <= k :: run[j].row.reviewResolvedAt.None?)
    ensures (exists j :: 0 <= j <= k && run[j].row.reviewResolvedAt.Some?) ==> !BulkEligible(run[k].row)
  {
    InvInductive(cfg);
    var rel := (f: Flow, g: Flow) => f.row.reviewResolvedAt.Some? ==> g.row.reviewResolvedAt.Some?;
    forall f, g, h | Inv(cfg, g) && rel(f, g) && Next(cfg, g, h) ensures rel(f, h) {
      if g.row.reviewResolvedAt.Some? {
        ResolutionKept(cfg, g, h);
      }
    }
    forall j | 0 <= j <= k && run[j].row.reviewResolvedAt.Some? ensures run[k].row.reviewResolvedAt.Some? {
      Runs.Onward(Start(), Steps(cfg), Invariant(cfg), rel, run, j, k);
    }
  }

  /** Such a payment is reachable: its review was resolved, an operator resent it, and the delivery
      failed again. It is back in review, on no list of open reviews and beyond the bulk requeue. */
  lemma LostAfterResend(cfg: Config) returns (f: Flow)
    requires ValidConfig(cfg) && cfg.mode == Idempotent
    ensures Reachable(cfg, f) && f.row.status == ManualReview && f.row.reason == Some(RetryLimitReached)
    ensures !Snapshot.OpenReview(f.row) && !BulkEligible(f.row) && f.requeues == 1
  {
    f := EligibleAgain(cfg, 0);
    f := Took(cfg, f, ResolveReview(0.0));
    f := Took(cfg, f, Resend(0.0));
    var n := f.row.attempts + 1;
    f := Took(cfg, f, Claim("worker", 0.0));
    f := Took(cfg, f, Send(n, Response(500, None)));
    assert OwnsClaim(f.row, "worker", n);
    RecordedIsWritten(cfg, f.row, Some(Response(500, None)), n, 0.0, 1.0);
    f := Took(cfg, f, Record(n, 0.0, 1.0));
  }
}
