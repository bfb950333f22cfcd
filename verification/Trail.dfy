/** The audit trail as an account (app/audit.py, app/services/notification.py,
    app/services/verification.py, app/ops.py, app/services/bulk_resend.py): what the events of a
    payment add up to, and that the row always agrees with it. */
module Trail {
  import opened Common
  import opened Rows
  import opened BotOutcome
  import opened Delivery
  import opened Attempts

  /** How often each kind of event was recorded about one payment. */
  datatype Counts = Counts(
    started: nat,      // attempts claimed
    accepted: nat,     // accepted by the bot
    byHand: nat,       // accepted by an operator
    failed: nat,       // attempts that failed
    scheduled: nat,    // attempts scheduled again
    ambiguous: nat,
    recovered: nat,    // stale claims
    reviews: nat,      // entries into manual review
    resent: nat,       // requeues, single and in bulk
    verified: nat,
    queued: nat)

  const NOTHING := Counts(0, 0, 0, 0, 0, 0, 0, 0, 0, 0, 0)

  function Bump(c: Counts, kind: EventKind): (d: Counts) {
    match kind
    case NotificationStarted => c.(started := c.started + 1)
    case NotificationAccepted => c.(accepted := c.accepted + 1)
    case ManuallyAccepted => c.(byHand := c.byHand + 1)
    case NotificationFailed => c.(failed := c.failed + 1)
    case RetryScheduled => c.(scheduled := c.scheduled + 1)
    case AmbiguousTimeout => c.(ambiguous := c.ambiguous + 1)
    case RecoveredAfterRestart => c.(recovered := c.recovered + 1)
    case ReviewRequired => c.(reviews := c.reviews + 1)
    case ResendRequested => c.(resent := c.resent + 1)
    case BulkResendRequested => c.(resent := c.resent + 1)
    case PaymentVerified => c.(verified := c.verified + 1)
    case NotificationQueued => c.(queued := c.queued + 1)
    case _ => c
  }

  function Tally(events: seq<Event>, i: nat): (c: Counts) {
    if events == [] then NOTHING
    else
      var n := |events| - 1;
      var c := Tally(events[..n], i);
      if events[n].payment == Some(i) then Bump(c, events[n].kind) else c
  }

  /** Counting on from c. */
  function After(c: Counts, more: seq<Event>): (d: Counts) {
    if more == [] then c
    else Bump(After(c, more[..|more| - 1]), more[|more| - 1].kind)
  }

  /** The attempts whose end the trail shows. */
  function Ended(mode: Mode, c: Counts): (n: nat) {
    c.accepted + c.failed + if mode == Safe then c.ambiguous else c.recovered
  }

  /** The row agrees with its events: every attempt was started once; verification and queueing
      happened together, once; acceptance once; every entry into review was left by a requeue
      unless the payment is still there; and every attempt but the one being held ended in the
      trail, or with the operator's acceptance. */
  ghost predicate Balances(mode: Mode, p: Payment, c: Counts) {
    && c.started == p.attempts
    && c.verified == c.queued == (if p.verifiedAt.Some? then 1 else 0)
    && c.accepted + c.byHand == (if p.status == Accepted then 1 else 0)
    && c.reviews == c.resent + (if p.status == ManualReview then 1 else 0)
    && (var held := if p.claimedAt.Some? then 1 else 0;
        Ended(mode, c) + held <= p.attempts <= Ended(mode, c) + held + c.byHand)
    && (if mode == Safe then c.recovered <= c.ambiguous else c.ambiguous == 0)
    && c.scheduled <= c.failed && (mode == Safe ==> c.resent == 0)
    && (p.claimedAt.Some? <==> p.claimedBy.Some?) && (p.claimedAt.Some? ==> p.status == Pending)
  }

  /** Every row agrees with the trail, and no event is about a payment that does not exist. */
  ghost predicate AllBalance(mode: Mode, rows: seq<Payment>, events: seq<Event>) {
    && (forall i {:trigger Tally(events, i)} | 0 <= i < |rows| :: Balances(mode, rows[i], Tally(events, i)))
    && (forall k | 0 <= k < |events| && events[k].payment.Some? :: events[k].payment.value < |rows|)
  }

  // ----- Adding events -----------------------------------------------------------------------------------

  lemma {:induction false} TallyAppend(events: seq<Event>, more: seq<Event>, id: Option<nat>, i: nat)
    requires forall k | 0 <= k < |more| :: more[k].payment == id
    ensures Tally(events + more, i) == if id == Some(i) then After(Tally(events, i), more) else Tally(events, i)
  {
    if more == [] {
      assert events + more == events;
    } else {
      var n := |more| - 1;
      TallyAppend(events, more[..n], id, i);
      assert (events + more)[..|events| + n] == events + more[..n];
    }
  }

  lemma {:induction false} NothingYet(events: seq<Event>, i: nat)
    requires forall k | 0 <= k < |events| :: events[k].payment != Some(i)
    ensures Tally(events, i) == NOTHING
  {
    if events != [] {
      NothingYet(events[..|events| - 1], i);
    }
  }

  lemma AfterFew(c: Counts, a: Event, b: Event, d: Event)
    ensures After(c, []) == c
    ensures After(c, [a]) == Bump(c, a.kind)
    ensures After(c, [a, b]) == Bump(Bump(c, a.kind), b.kind)
    ensures After(c, [a, b, d]) == Bump(Bump(Bump(c, a.kind), b.kind), d.kind)
  {
    assert [a, b][..1] == [a];
    assert [a, b, d][..2] == [a, b];
  }

  /** One row changes, and the events that say so are about it. */
  lemma RowChanges(mode: Mode, rows: seq<Payment>, events: seq<Event>, id: nat, q: Payment, more: seq<Event>)
    requires AllBalance(mode, rows, events) && id < |rows|
    requires forall k | 0 <= k < |more| :: more[k].payment == Some(id)
    requires Balances(mode, q, After(Tally(events, id), more))
    ensures AllBalance(mode, rows[id := q], events + more)
  {
    forall i | 0 <= i < |rows| ensures Balances(mode, rows[id := q][i], Tally(events + more, i)) {
      TallyAppend(events, more, Some(id), i);
    }
  }

  lemma RowAdded(mode: Mode, rows: seq<Payment>, events: seq<Event>, p: Payment)
    requires AllBalance(mode, rows, events) && Fresh(p)
    ensures AllBalance(mode, rows + [p], events)
  {
    NothingYet(events, |rows|);
  }

  lemma NobodysEvent(mode: Mode, rows: seq<Payment>, events: seq<Event>, e: Event)
    requires AllBalance(mode, rows, events) && e.payment.None?
    ensures AllBalance(mode, rows, events + [e])
  {
    forall i | 0 <= i < |rows| ensures Balances(mode, rows[i], Tally(events + [e], i)) {
      TallyAppend(events, [e], None, i);
    }
  }

  // ----- What the single transactions add -----------------------------------------------------------------

  /** The columns the account is about. */
  ghost predicate SameStanding(p: Payment, q: Payment) {
    && q.attempts == p.attempts && (q.verifiedAt.Some? <==> p.verifiedAt.Some?)
    && (q.claimedAt.Some? <==> p.claimedAt.Some?) && (q.claimedBy.Some? <==> p.claimedBy.Some?)
  }

  lemma ClaimBalances(mode: Mode, p: Payment, q: Payment, c: Counts)
    requires Balances(mode, p, c) && p.claimedAt.None? && p.status == Pending == q.status
    requires q.attempts == p.attempts + 1 && q.claimedAt.Some? && q.claimedBy.Some? && q.verifiedAt == p.verifiedAt
    ensures Balances(mode, q, Bump(c, NotificationStarted))
  {
  }

  lemma AcceptBalances(mode: Mode, p: Payment, q: Payment, c: Counts)
    requires Balances(mode, p, c) && p.status == Pending && q.status == Accepted
    requires q.attempts == p.attempts && q.claimedAt.None? && q.claimedBy.None? && q.verifiedAt == p.verifiedAt
    ensures Balances(mode, q, Bump(c, ManuallyAccepted))
  {
  }

  lemma RequeueBalances(mode: Mode, p: Payment, q: Payment, c: Counts)
    requires Balances(mode, p, c) && mode == Idempotent && p.status == ManualReview && q.status == Pending && SameStanding(p, q)
    ensures Balances(mode, q, Bump(c, ResendRequested)) && Balances(mode, q, Bump(c, BulkResendRequested))
  {
  }

  lemma VerifiedBalances(mode: Mode, p: Payment, q: Payment, c: Counts)
    requires Balances(mode, p, c) && p.verifiedAt.None? && p.status !in {Accepted, ManualReview, Pending}
    requires q.status == Pending && q.attempts == p.attempts && q.claimedAt == p.claimedAt && q.claimedBy == p.claimedBy && q.verifiedAt.Some?
    ensures Balances(mode, q, Bump(Bump(c, PaymentVerified), NotificationQueued))
  {
  }

  lemma MismatchBalances(mode: Mode, p: Payment, q: Payment, event: string, c: Counts)
    requires Balances(mode, p, c) && p.status !in {Accepted, ManualReview, Pending} && q.status == ManualReview && SameStanding(p, q)
    ensures Balances(mode, q, Bump(Bump(c, GatewayMismatch(event)), ReviewRequired))
  {
  }

  /** A transaction that changes nothing the account is about. */
  lemma QuietChange(mode: Mode, rows: seq<Payment>, events: seq<Event>, id: nat, q: Payment, e: Event)
    requires AllBalance(mode, rows, events) && id < |rows| && e.payment == Some(id)
    requires e.kind in {LinkIssued, LinkFailed, ReviewResolved, VerifyFailed, VerifyNotPaid} && SameStanding(rows[id], q)
    requires (q.status == Accepted <==> rows[id].status == Accepted) && (q.status == ManualReview <==> rows[id].status == ManualReview)
    requires q.status == rows[id].status || rows[id].status != Pending
    ensures AllBalance(mode, rows[id := q], events + [e])
  {
    assert Balances(mode, q, Tally(events, id)) && Bump(Tally(events, id), e.kind) == Tally(events, id);
    AfterFew(Tally(events, id), e, e, e);
    RowChanges(mode, rows, events, id, q, [e]);
  }

  lemma OneEvent(mode: Mode, rows: seq<Payment>, events: seq<Event>, id: nat, q: Payment, kind: EventKind)
    requires AllBalance(mode, rows, events) && id < |rows| && Balances(mode, q, Bump(Tally(events, id), kind))
    ensures AllBalance(mode, rows[id := q], events + [Event(kind, Some(id))])
  {
    var e := Event(kind, Some(id));
    AfterFew(Tally(events, id), e, e, e);
    RowChanges(mode, rows, events, id, q, [e]);
  }

  /** The four ends of a settlement. */
  ghost predicate SettlementEvents(p: Payment, q: Payment, id: nat, more: seq<Event>) {
    || (q.status == Pending && q.attempts == p.attempts && q.claimedAt == p.claimedAt && q.claimedBy == p.claimedBy && q.verifiedAt.Some?
        && more == [Event(PaymentVerified, Some(id)), Event(NotificationQueued, Some(id))])
    || (q.status == ManualReview && SameStanding(p, q) && |more| == 2 && more[0].kind.GatewayMismatch?
        && more == [Event(more[0].kind, Some(id)), Event(ReviewRequired, Some(id))])
    || (q.status == p.status && SameStanding(p, q)
        && (more == [Event(VerifyFailed, Some(id))] || more == [Event(VerifyNotPaid, Some(id))]))
  }

  lemma SettlementKeeps(mode: Mode, rows: seq<Payment>, events: seq<Event>, id: nat, q: Payment, more: seq<Event>)
    requires AllBalance(mode, rows, events) && id < |rows| && SettlementEvents(rows[id], q, id, more)
    requires rows[id].verifiedAt.None? && rows[id].status !in {Accepted, ManualReview, Pending}
    ensures AllBalance(mode, rows[id := q], events + more)
  {
    var p, c := rows[id], Tally(events, id);
    if |more| == 1 {
      QuietChange(mode, rows, events, id, q, more[0]);
    } else {
      AfterFew(c, more[0], more[1], more[0]);
      assert more == [more[0], more[1]];
      if q.status == ManualReview {
        MismatchBalances(mode, p, q, more[0].kind.event, c);
      } else {
        VerifiedBalances(mode, p, q, c);
      }
      RowChanges(mode, rows, events, id, q, more);
    }
  }

  // ----- What recording a result or recovering a claim adds ---------------------------------------------------

  /** The events record_attempt_result appends, in order: each attempt is accepted, failed or
      ambiguous, and then scheduled again or handed to an operator. */
  ghost function RecordedEvents(cfg: Config, reply: Option<Reply>, attempt: nat, id: nat, owned: bool): (es: seq<Event>) {
    var e := (k: EventKind) => Event(k, Some(id));
    if !owned then [e(ResultDiscarded)]
    else if Accepts(reply) then [e(NotificationAccepted)]
    else if Repeats(cfg.mode, reply) && attempt < cfg.maxAttempts then [e(NotificationFailed), e(RetryScheduled)]
    else if cfg.mode == Safe && reply == Some(OtherTransportError) then [e(AmbiguousTimeout), e(ReviewRequired)]
    else [e(NotificationFailed), e(ReviewRequired)]
  }

  /** The events of one recovered claim: in safe mode, or at the attempt limit, the payment
      goes to review. */
  ghost function RecoveredEvents(cfg: Config, p: Payment, id: nat): (es: seq<Event>) {
    var e := (k: EventKind) => Event(k, Some(id));
    if cfg.mode == Safe then [e(RecoveredAfterRestart), e(AmbiguousTimeout), e(ReviewRequired)]
    else if p.attempts >= cfg.maxAttempts then [e(RecoveredAfterRestart), e(ReviewRequired)]
    else [e(RecoveredAfterRestart)]
  }

  /** A held attempt ends: accepted, or failed and scheduled again. */
  lemma EndBalances(mode: Mode, p: Payment, q: Payment, c: Counts)
    requires Balances(mode, p, c) && p.status == Pending && p.claimedAt.Some?
    requires q.attempts == p.attempts && q.verifiedAt == p.verifiedAt && q.claimedAt.None? && q.claimedBy.None?
    ensures q.status == Accepted ==> Balances(mode, q, Bump(c, NotificationAccepted))
    ensures q.status == Pending ==> Balances(mode, q, Bump(Bump(c, NotificationFailed), RetryScheduled))
  {
  }

  /** Or it is handed to an operator. */
  lemma HandedOver(mode: Mode, p: Payment, q: Payment, c: Counts)
    requires Balances(mode, p, c) && p.status == Pending && p.claimedAt.Some? && q.status == ManualReview
    requires q.attempts == p.attempts && q.verifiedAt == p.verifiedAt && q.claimedAt.None? && q.claimedBy.None?
    ensures Balances(mode, q, Bump(Bump(c, NotificationFailed), ReviewRequired))
    ensures mode == Safe ==> Balances(mode, q, Bump(Bump(c, AmbiguousTimeout), ReviewRequired))
  {
  }

  /** And those of a claim that went stale. */
  lemma StaleBalances(mode: Mode, p: Payment, q: Payment, c: Counts)
    requires Balances(mode, p, c) && p.status == Pending && p.claimedAt.Some?
    requires q.attempts == p.attempts && q.verifiedAt == p.verifiedAt && q.claimedAt.None? && q.claimedBy.None?
    ensures q.status == ManualReview && mode == Safe ==>
              Balances(mode, q, Bump(Bump(Bump(c, RecoveredAfterRestart), AmbiguousTimeout), ReviewRequired))
    ensures q.status == ManualReview && mode == Idempotent ==> Balances(mode, q, Bump(Bump(c, RecoveredAfterRestart), ReviewRequired))
    ensures q.status == Pending && mode == Idempotent ==> Balances(mode, q, Bump(c, RecoveredAfterRestart))
  {
  }

  lemma ResultBalances(cfg: Config, p: Payment, reply: Option<Reply>, attempt: nat, id: nat, now: Time, jitter: real, c: Counts)
    requires Balances(cfg.mode, p, c) && p.status == Pending && p.claimedAt.Some?
    ensures Balances(cfg.mode, Written(cfg, p, reply, attempt, now, jitter), After(c, RecordedEvents(cfg, reply, attempt, id, true)))
  {
    var q, es := Written(cfg, p, reply, attempt, now, jitter), RecordedEvents(cfg, reply, attempt, id, true);
    if q.status == ManualReview {
      HandedOver(cfg.mode, p, q, c);
    } else {
      EndBalances(cfg.mode, p, q, c);
    }
    if Accepts(reply) {
      AfterFew(c, es[0], es[0], es[0]);
    } else {
      AfterFew(c, es[0], es[1], es[0]);
      assert es == [es[0], es[1]];
    }
  }

  lemma DiscardBalances(cfg: Config, p: Payment, reply: Option<Reply>, attempt: nat, id: nat, c: Counts)
    requires Balances(cfg.mode, p, c)
    ensures Balances(cfg.mode, p, After(c, RecordedEvents(cfg, reply, attempt, id, false)))
  {
    AfterFew(c, Event(ResultDiscarded, Some(id)), Event(ReviewRequired, Some(id)), Event(ReviewRequired, Some(id)));
  }

  lemma RecoveryBalances(cfg: Config, p: Payment, id: nat, now: Time, jitter: real, c: Counts)
    requires Balances(cfg.mode, p, c) && p.status == Pending && p.claimedAt.Some?
    ensures Balances(cfg.mode, Released(cfg, p, now, jitter), After(c, RecoveredEvents(cfg, p, id)))
  {
    var es := RecoveredEvents(cfg, p, id);
    StaleBalances(cfg.mode, p, Released(cfg, p, now, jitter), c);
    if cfg.mode == Safe {
      AfterFew(c, es[0], es[1], es[2]);
    } else if p.attempts >= cfg.maxAttempts {
      AfterFew(c, es[0], es[1], es[0]);
    } else {
      AfterFew(c, es[0], es[0], es[0]);
    }
  }

  lemma ResultKeeps(cfg: Config, rows: seq<Payment>, events: seq<Event>, id: nat, reply: Option<Reply>, attempt: nat,
                    owned: bool, now: Time, jitter: real)
    requires AllBalance(cfg.mode, rows, events) && id < |rows|
    requires owned ==> rows[id].status == Pending && rows[id].claimedBy.Some?
    ensures var q := if owned then Written(cfg, rows[id], reply, attempt, now, jitter) else rows[id];
            AllBalance(cfg.mode, rows[id := q], events + RecordedEvents(cfg, reply, attempt, id, owned))
  {
    var p, c := rows[id], Tally(events, id);
    if owned {
      ResultBalances(cfg, p, reply, attempt, id, now, jitter, c);
      RowChanges(cfg.mode, rows, events, id, Written(cfg, p, reply, attempt, now, jitter), RecordedEvents(cfg, reply, attempt, id, true));
    } else {
      DiscardBalances(cfg, p, reply, attempt, id, c);
      RowChanges(cfg.mode, rows, events, id, p, RecordedEvents(cfg, reply, attempt, id, false));
    }
  }

  lemma RecoveryKeeps(cfg: Config, rows: seq<Payment>, events: seq<Event>, id: nat, now: Time, jitter: real)
    requires AllBalance(cfg.mode, rows, events) && id < |rows|
    requires rows[id].status == Pending && rows[id].claimedAt.Some?
    ensures AllBalance(cfg.mode, rows[id := Released(cfg, rows[id], now, jitter)], events + RecoveredEvents(cfg, rows[id], id))
  {
    RecoveryBalances(cfg, rows[id], id, now, jitter, Tally(events, id));
    RowChanges(cfg.mode, rows, events, id, Released(cfg, rows[id], now, jitter), RecoveredEvents(cfg, rows[id], id));
  }
}
