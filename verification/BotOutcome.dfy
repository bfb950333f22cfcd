/** Classification of one notification attempt (app/bot.py) and the safe-mode
    downgrade applied to it (app/services/notification.py). */
module BotOutcome {
  import opened Common
  import opened Rows

  /** What the transport observed for one POST to the bot. */
  datatype Reply =
    | Response(status: int, retryAfter: Option<int>)
    | ConnectError(cause: ConnectCause)
    | ConnectTimeout
    | PoolTimeout
    | OtherTransportError   // read/write timeout, protocol error, anything else

  datatype Kind = KAccepted | KRetryable | KAmbiguous | KManual

  datatype Outcome = Outcome(
    kind: Kind,
    reason: Reason,
    httpStatus: Option<int>,
    retryAfter: Option<int>)

  datatype Mode = Safe | Idempotent

  const RETRYABLE_HTTP := {500, 502, 503, 504}
  const MANUAL_HTTP := {400, 401, 403, 404, 409, 422}

  function ClassifyResponse(status: int, retryAfter: Option<int>): (o: Outcome)
    ensures o.httpStatus == Some(status)
    ensures o.kind == KAccepted <==> 200 <= status < 300
    ensures o.kind == KRetryable <==> status in RETRYABLE_HTTP || status == 429
    ensures o.kind != KAmbiguous
    ensures o.retryAfter == if status == 429 then retryAfter else None
  {
    if 200 <= status < 300 then
      Outcome(KAccepted, NotifyAccepted, Some(status), None)
    else if status in RETRYABLE_HTTP then
      Outcome(KRetryable, HttpCode(status), Some(status), None)
    else if status == 429 then
      Outcome(KRetryable, HttpCode(status), Some(status), retryAfter)
    else if status in MANUAL_HTTP then
      Outcome(KManual, HttpCode(status), Some(status), None)
    else
      Outcome(KManual, HttpOther, Some(status), None)
  }

  function ClassifyTransportError(r: Reply): (o: Outcome)
    requires !r.Response?
    ensures o.httpStatus == None && o.retryAfter == None
    ensures o.kind == KRetryable || o.kind == KAmbiguous
    ensures o.kind == KRetryable <==> ProvablyUnprocessed(r)
  {
    match r
    case ConnectError(cause) => Outcome(KRetryable, ConnectFailure(cause), None, None)
    case ConnectTimeout => Outcome(KRetryable, ConnectFailure(ConnectOther), None, None)
    case PoolTimeout => Outcome(KRetryable, ConnectFailure(ConnectOther), None, None)
    case OtherTransportError => Outcome(KAmbiguous, TimeoutAmbiguous, None, None)
  }

  function Classify(r: Reply): (o: Outcome) {
    match r
    case Response(status, retryAfter) => ClassifyResponse(status, retryAfter)
    case _ => ClassifyTransportError(r)
  }

  /** The outcome execute_claimed_attempt records when no notifier is configured. */
  const UNCONFIGURED := Outcome(KManual, InvalidConfiguration, None, None)

  /** The kind record_attempt_result acts on. */
  function EffectiveKind(mode: Mode, o: Outcome): (k: Kind) {
    if o.kind == KAmbiguous && mode == Idempotent then KRetryable
    else if o.kind == KRetryable && mode == Safe
            && o.httpStatus.Some? && o.httpStatus.value in RETRYABLE_HTTP then KManual
    else o.kind
  }

  /** The bot provably did not process the request: no connection was ever
      established, or it was refused with 429 (section 4 of RFC 6585). */
  predicate ProvablyUnprocessed(r: Reply) {
    r.ConnectError? || r.ConnectTimeout? || r.PoolTimeout? || (r.Response? && r.status == 429)
  }

  /** Safe mode retries exactly the replies that prove the bot did nothing. */
  lemma SafeRetriesExactlyUnprocessed(r: Reply)
    ensures EffectiveKind(Safe, Classify(r)) == KRetryable <==> ProvablyUnprocessed(r)
    ensures EffectiveKind(Safe, Classify(r)) == KAccepted <==> r.Response? && 200 <= r.status < 300
  {
    if r.Response? && r.status != 429 {
      assert Classify(r).kind == KRetryable <==> r.status in RETRYABLE_HTTP;
    }
  }

  /** Idempotent mode additionally retries the four 5xx codes and every ambiguous transport error. */
  lemma IdempotentRetries(r: Reply)
    ensures EffectiveKind(Idempotent, Classify(r)) == KRetryable
       <==> ProvablyUnprocessed(r) || r.OtherTransportError? || (r.Response? && r.status in RETRYABLE_HTTP)
  {
    if r.Response? {
      assert Classify(r).kind == KRetryable <==> (r.status in RETRYABLE_HTTP || r.status == 429);
    }
  }
}
