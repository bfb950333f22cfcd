/** The payments table: one row per bot order (app/models.py). */
module Rows {
  import opened Common

  datatype Status =
    | Created
    | LinkCreated
    | GetLinkFailed
    | GatewayVerified
    | Pending        // bot_notify_pending
    | Accepted       // bot_notify_accepted
    | ManualReview

  /** Why a transport-level connect attempt failed. */
  datatype ConnectCause = DnsFailed | Refused | ConnectOther

  /** bot_notify_reason: the normalized delivery reason codes. */
  datatype Reason =
    | NotifyAccepted
    | ConnectFailure(cause: ConnectCause)
    | TimeoutAmbiguous
    | HttpCode(code: int)
    | HttpOther
    | InvalidConfiguration
    | RetryLimitReached

  /** last_error, by the writer that set it. */
  datatype LastError =
    | ReviewError(reason: Reason)
    | RetryError(reason: Reason)
    | GatewayError(text: string)

  datatype IdentityType = TelegramUser | OrderFallback

  /** The immutable fee snapshot together with the original invoice amount. */
  datatype Money = Money(amount: int, rateBps: int, fee: int, payable: int)

  /** The payer identity snapshot stored on a payment. */
  datatype Payer = Payer(identity: nat, kind: IdentityType, gatewayUserId: int)

  datatype Payment = Payment(
    orderId: string,
    createdAt: Time,
    money: Money,
    payer: Payer,
    status: Status,
    redirectUrl: Option<string>,
    referenceId: Option<string>,
    verifiedAt: Option<Time>,
    lastError: Option<LastError>,
    reason: Option<Reason>,
    attempts: nat,
    lastHttpStatus: Option<int>,
    startedAt: Option<Time>,
    acceptedAt: Option<Time>,
    nextRetryAt: Option<Time>,
    manualReviewAt: Option<Time>,
    claimedAt: Option<Time>,
    claimedBy: Option<string>,
    reviewResolvedAt: Option<Time>)

  /** payment_events.event_type, for the events the model records. */
  datatype EventKind =
    | PaymentCreated
    | FeeSnapshotted
    | IdentityCreated
    | IdentityCollision
    | IdentityAdopted
    | CustomerMismatch
    | AmountMismatch
    | LinkIssued
    | LinkFailed
    | GatewayMismatch(event: string)
    | ReviewRequired
    | VerifyFailed
    | VerifyNotPaid
    | PaymentVerified
    | NotificationQueued
    | NotificationStarted
    | NotificationAccepted
    | NotificationFailed
    | RetryScheduled
    | AmbiguousTimeout
    | ResultDiscarded
    | RecoveredAfterRestart
    | ManuallyAccepted
    | ReviewResolved
    | ResendRequested
    | BulkResendRequested
    | BulkResendCompleted
    | AttentionResolved

  /** One row of the append-only audit trail; its id is its position. */
  datatype Event = Event(kind: EventKind, payment: Option<nat>)

  /** A row as _ensure_payment_row inserts it. */
  ghost predicate Fresh(p: Payment) {
    && p.status == Created
    && p.redirectUrl == None
    && p.referenceId == None
    && p.verifiedAt == None
    && p.lastError == None
    && p.reason == None
    && p.attempts == 0
    && p.lastHttpStatus == None
    && p.startedAt == None
    && p.acceptedAt == None
    && p.nextRetryAt == None
    && p.manualReviewAt == None
    && p.claimedAt == None
    && p.claimedBy == None
    && p.reviewResolvedAt == None
  }

  /** What an order is charged for; fixed when its row is inserted. */
  ghost predicate SameCharge(p: Payment, q: Payment) {
    p.orderId == q.orderId && p.createdAt == q.createdAt && p.money == q.money
  }

  /** Everything about a row that only payment creation may write. */
  ghost predicate SameIssue(p: Payment, q: Payment) {
    && SameCharge(p, q)
    && p.payer == q.payer
    && p.redirectUrl == q.redirectUrl
  }
}
