# CentralPay Bridge: a verified model

CentralPay Bridge sits between a shop bot and the CentralPay gateway. It creates payment
links, settles verified payments and notifies the bot, while API requests, notification
workers, an alert worker, monitors and operators act concurrently on shared PostgreSQL rows.
This project models its protocols in Dafny and proves what they guarantee over whole runs.

`dafny verify dfyconfig.toml` checks everything.

## How the model is built

- Tables are sequences, an id is a position, and the audit trail is a sequence of events
  whose id is its position. Instants are reals; jitter and every clock reading are
  parameters. A row lock held to commit makes a transaction one step; everything that
  happens outside a transaction (the HTTP request to the bot, a process that dies, a race
  between two transactions of one call) is a step of its own.
- `Runs` holds the induction principles for state machines; `Lease` the abstract claim
  protocol that both `Delivery` (payments) and `Alerts` (the alert outbox) refine.
- `Delivery` is the state machine of one payment with every actor; `Store` is the code that
  updates the table, each method proved to take steps of that machine. `ModeSwitch` lets the
  retry mode change between any two steps. `Bulk` adds several administrators requeueing at
  once while the worker (`Returns`) puts payments back and other operators take them away.
- `Attempts` says what an attempt and its claim come to from the bot's reply and the clock alone,
  without the classification and the row transitions the code goes through; `Trail` what the
  audit events of a payment add up to, which every method of `Store` keeps in step with the row.
- `Identity` and `Creation` are the state machine of concurrent create calls and payer
  resolution, sharing its rows with `Delivery`; `Desk` is the code that runs it.
- `Incidents` and `Monitor` are racing monitor processes over the alert outbox, `Instants` what
  happens when two of their readings carry the same instant; `Attention` is the operator
  worklist over the event trail.
- `RateLimit` and `LimiterStore` prove the pruned deque and the LRU store against full
  histories; `Fees`, `Policies`, `Snapshot`, `SplitMessage` and `ReplyDelivery` the money
  arithmetic, the policy timeline, the one-statement worklist and the reply pipeline.
- `Query` models ordered, bounded SELECT statements.

## Where the code does less than it promises

- Alert claims: `release_stale_alert_claims` has no branch for the attempt limit. In every run
  `admin_bot_alert_max_attempts` is exceeded exactly when a stale claim of the last permitted
  attempt is released and the alert claimed again (`Alerts.LimitExceededExactly`).
- Bulk requeue: the command commits batch after batch and selects again until a selection is
  empty, while others work on the same payments. The worker it wakes may fail a payment straight
  back to review, `review resolve` and `review resend` take payments away, a selection passes
  over rows that other transactions hold, and an execution may die holding its batch. A payment is
  requeued exactly as often as it was or became eligible, less the times another hand took it
  away and the one time it may be left (`Bulk.RequeueAccount`), so the announced single requeue
  happens exactly when these balance (`Bulk.ExactlyOneRequeues`). `Bulk.TakenAway`,
  `Bulk.PassedOver`, `Bulk.DiesHolding` and `Bulk.RequeuedWithoutBound` are runs where it does not,
  `Bulk.ResentAndBack` one where it does although the payment came back; `Returns` shows the
  payment's own part of them.
- Resolved reviews: nothing clears `review_resolved_at`. A payment that is resent after its review
  was resolved and fails again is back in review, but the open list and the bulk requeue leave
  it out. A payment in review is listed exactly when no review of it was resolved before
  (`Returns.ResolvedForGood`, `Returns.LostAfterResend`).
- Incident alerts: the stamped deduplication keys need distinct instants per check. With a
  repeated instant the replacement of a failed alert is suppressed, and stays so
  (`Incidents.CoveredExactlyWithFreshKey`, `Instants.SameInstantSilences`).
- Fee policies: set, schedule and cancel read the clock before they commit, cancel even
  before it waits for the row lock. The selection for instants between the read and the
  commit can change; `Policies` gives the exact condition for each operation, with ids drawn in
  any order.
- The attention total is read from the first returned row, so a limit of zero reports zero
  (`Snapshot.TotalExact`).
- The reply budget is charged with the delay of the classified error, which is the delay
  Telegram names plus one second. A negative one refunds it: flood limits classified as d
  seconds can make a reply outlast its budget exactly when d is negative, that is when Telegram
  names -2 seconds or less (`ReplyDelivery.OverrunExactlyWhenNegative`).
- `split_message` of a long text returns no chunk at all exactly when the text holds nothing
  but newlines (`SplitMessage.NoChunksExactly`, `SplitMessage.NewlinesVanish`).

The table lists the results about whole runs first, then what single operations do, then the
helper facts those rest on.

## Model

| member | source | states |
|---|---|---|
| `Delivery.SafeModeAtMostOnce` | app/services/notification.py:262-311 | Safe mode, every run: only the last request ever sent can have been processed by the bot; its attempt is the row's current one, and the row is still held by that claim or has left the queue |
| `Delivery.SafeModeNoFurtherSend` | app/services/notification.py:452-551 | Safe mode, every run: after a request the bot may have processed nothing is ever sent again |
| `ModeSwitch.RiskySendsAfterSwitch` | app/services/notification.py:296-311 | Every run in which the retry mode changes between any two steps: once it is safe for good, at most one further request the bot may process comes from each live unsent claim, and one more |
| `ModeSwitch.MixedDelivery` | app/services/notification.py:346-361 | Every such run: claims stay within max_attempts plus requeues, no attempt is sent twice, each is settled at most once, one verification |
| `Delivery.BoundedDelivery` | app/services/notification.py:346-361 | Both modes, every run, workers that always die included: claims never exceed max_attempts plus operator requeues, a waiting row has strictly fewer, and no attempt is sent twice |
| `Delivery.LifeCycleRun` | app/services/aged_out_recovery.py:40-81 | Between any two points of any run: verified once and for good, on one reference id that is stored exactly while the payment is verified and never changes; accepted for good, in safe mode in review for good, amounts fixed, payer and link fixed once no link can be issued; at most one verification |
| `Delivery.RecoveryNeverResends` | app/services/aged_out_recovery.py:124-139 | A payment aged-out recovery admits is unsettled and was never queued, claimed or sent at any earlier point of its run |
| `Delivery.RecoveryExactly` | app/services/aged_out_recovery.py:124-139 | Every reachable state: aged-out recovery admits exactly the old enough payments that have a link and nothing more, and refuses each other one for what it is |
| `Delivery.RefinesLease` | app/services/notification.py:156-201 | Every delivery run is a run of the abstract lease |
| `Delivery.AttemptSettledAtMostOnce` | app/services/notification.py:256-289 | Every run: each attempt number is settled at most once, by its own result, stale recovery or manual acceptance |
| `Delivery.LateResultDiscarded` | app/services/notification.py:256-289 | A result is applied exactly when its own claim is the one still held; a settled or superseded attempt leaves the row unchanged even under the same worker id |
| `Lease.SettledAtMostOnce` | app/services/notification.py:117-135 | The lease itself, over every run: attempts are settled at most once and settlements are never withdrawn |
| `Store.StoreGuarantees` | app/services/notification.py:566-594 | Whatever sequence of these methods built the table: row consistency, no two payments ever verified on one reference id, bounded attempts and, in safe mode, at most one risky send, the last |
| `Store.TrailAccounts` | app/services/notification.py:262-418 | The audit trail accounts for every row: attempts started, one verification and queueing, one acceptance, every entry into review left by a requeue but the last, every attempt but the held one ended |
| `Attempts.StaleOnlyAfterTimeout` | app/services/notification.py:468-484 | Every run: a claim can be ended by stale recovery exactly from claim_timeout after the instant at which its attempt was claimed |
| `Attempts.EligibleStep` | app/services/bulk_resend.py:40-84 | Whatever anybody does to a reachable payment: it is on the bulk list afterwards exactly when this step put it there (out of attempts on a repeatable reply, an ambiguous error in safe mode, or a stale claim that went to review; never resolved before), or it was there and this step neither requeued nor resolved it |
| `Attempts.RecordedIsWritten` | app/services/notification.py:296-418 | For every reply, mode and attempt: classifying, downgrading by mode and recording writes exactly the row told from the reply itself |
| `Attempts.DelaysGrow` | app/services/notification.py:45-82 | Every further attempt waits longer than the one before, whatever the jitter of each, up to the sixth; then an hour up to jitter; never less than 51 seconds nor more than 69 minutes |
| `Creation.OneLinkPerOrder` | app/services/payments.py:393-633 | Every reachable state: all successful calls for one order asked for the same amount and got the same URL, the one on its row |
| `Creation.LinkFrozen` | app/services/payments.py:549-633 | Every run: amount and fee never change, a Telegram payer is never replaced, and once stored the URL, payer identity and gateway id never change |
| `Creation.LinkIssuedAtMostOnce` | app/services/payments.py:549-633 | Every reachable state: one link-issued event for a row with a URL and none for the others |
| `Creation.PayerIsolation` | app/services/payer_identity.py:96-105 | Every reachable state: keys and gateway ids one-to-one, Telegram ids exact, order ids beyond them, the reserved id unassigned, every payment charged under a listed identity of its kind |
| `Creation.ResolvingIsStable` | app/services/payer_identity.py:262-280 | Two calls for one key at any two points of a run resolve to the same identity |
| `Creation.LinkNeverCrosses` | app/services/payments.py:253-293 | A Telegram user is never given a link issued under another; two of them get one order's link only if it was issued under the order's own identity |
| `Creation.FastReplayRefinesCreation` | app/services/payments.py:296-390 | Whenever the read-only check answers u, full creation on that state answers u step by step with no gateway call and no change to payments, identities or events |
| `Creation.FastReplayExactly` | app/services/payments.py:371-390 | Every reachable state: the fast path answers exactly when the request's key is already mapped to the identity on the order's row and the locked section would return that URL |
| `Creation.StoredMoney` | app/services/payments.py:129-154 | Every stored row carries the fee calculate_fee gives for its amount and rate, with payable = amount + fee within the maximum |
| `Creation.LinkOwedExactly` | app/services/payments.py:459-545 | Every reachable state, for a call with its payer: each answer of the locked section exactly when the columns of the order's row call for it |
| `Creation.OwedLinkIssued` | app/services/payments.py:543-633 | getLink is called exactly when a link is owed, also after an earlier failure; the link it gives is stored on the order's row and answered |
| `Creation.TrailOfCreation` | app/services/payments.py:185-213 | Every reachable state: one event for every payer identity, one creation and one fee snapshot for every order |
| `LimiterStore.StoredExactlyRemembered` | app/ratelimit.py:89-99 | A key is stored exactly while fewer than `capacity` distinct other keys were used since its last use; the store holds as many keys as were ever used, up to its capacity |
| `LimiterStore.SameAnswers` | app/ratelimit.py:101-105 | Its allow and retry_after answers equal those of an unbounded map of limiters |
| `LimiterStore.UndisturbedIsIndependent` | app/ratelimit.py:72-80 | A key that was never evicted has the history of an independent limiter |
| `RateLimit.IntervalBounded` | app/ratelimit.py:39-47 | Every closed interval as long as the window holds at most `limit` accepted events |
| `RateLimit.RoomExactly` | app/ratelimit.py:39-47 | There is room exactly while the closed window before the call holds fewer than `limit` accepted events |
| `RateLimit.RetryAfterExact` | app/ratelimit.py:49-65 | After a refusal there is no room up to now + retry_after and there is room strictly later, if nothing else is accepted |
| `RateLimit.RefusedUntilThenAccepted` | app/ratelimit.py:49-65 | Any series of calls within the delay is refused and changes nothing; the first later call succeeds |
| `Alerts.TerminalFrozen` | app/adminbot/alerts.py:428-459 | Every run: delivered, failed and suppressed alerts never change again; key, severity and suppression are fixed at creation |
| `Alerts.RefinesLease` | app/adminbot/alerts.py:359-400 | Every alert run is a run of the same abstract lease |
| `Alerts.AttemptSettledAtMostOnce` | app/adminbot/alerts.py:403-459 | Every run: each attempt of an alert is settled at most once |
| `Alerts.LateResultDiscarded` | app/adminbot/alerts.py:428-459 | A result is applied exactly while its own attempt is the one being sent |
| `Alerts.StaleOnlyAfterTimeout` | app/adminbot/alerts.py:323-356 | Every run: an alert being sent can be taken from its worker exactly from claim_timeout after that attempt was claimed |
| `Alerts.CreateKeepsDeduplicated` | app/adminbot/alerts.py:96-125 | Two alerts with one key that may be sent are always more than the window apart, and none is withheld without one that covers it |
| `Alerts.LimitExceededExactly` | app/adminbot/alerts.py:323-356 | Every run: an alert exceeds its attempt limit exactly when a stale claim of its last permitted attempt, or a later one, was released and the alert was then claimed again |
| `Alerts.AttemptLimitExactlyWithoutOverruns` | app/adminbot/alerts.py:323-356 | With r such releases an alert can be claimed max + r times and no more |
| `Incidents.AtMostOneOpen` | app/models.py:499-508 | Every reachable state, monitors racing: at most one open incident per check, and the lookup finds it |
| `Incidents.NoSilentIncident` | app/services/monitor_incidents.py:192-325 | After every unhealthy cycle with alerting on, the open incident has an alert of at least its severity that is neither failed nor suppressed |
| `Incidents.AnnouncementsBounded` | app/services/monitor_incidents.py:108-125 | Every reachable state: an incident is announced at most once, plus once per worsening, plus once per own alert that failed for good |
| `Incidents.AlertsOnlyOnChange` | app/services/monitor_incidents.py:235-325 | A cycle on an open incident adds one alert exactly when alerting is on and the reading got worse, an alert is still owed or the last one does not cover it; otherwise none |
| `Incidents.RecoveryAnnounced` | app/services/monitor_incidents.py:162-189 | A healthy reading closes the open incident and, with alerting on, adds exactly one alert about it that is never suppressed |
| `Incidents.CoveredExactlyWithFreshKey` | app/services/monitor_incidents.py:239-322 | Every state reachable with repeated instants: a cycle that must alert covers its incident exactly when no unsuppressed alert has the same stamped key |
| `Instants.SameInstantSilences` | app/services/monitor_incidents.py:287-322 | A reachable run of monitors and outbox: after a catch-up alert has failed, a second cycle with its instant leaves the open incident uncovered |
| `Bulk.RequeueAccount` | app/services/bulk_resend.py:119-172 | The same account at every point of every run |
| `Bulk.RequeueCount` | app/services/bulk_resend.py:119-172 | Every run of administrators, worker and other operators: once all executions have ended, requeues of a row + times another hand took it away + whether it is left = whether it was eligible at the start + times it became eligible |
| `Bulk.ExactlyOneRequeues` | app/services/bulk_resend.py:119-172 | Per row: requeued once if initially eligible and else never, exactly when it became eligible just as often as it was taken away or left at the end; for a row that never became eligible, exactly when it was neither; one requeue is by exactly one execution |
| `Bulk.ReportsAddUpToPreview` | app/services/bulk_resend.py:87-99 | Once all have ended, in counts and amounts: reported by survivors + requeued by the dead + taken away + left = preview + what became eligible |
| `Bulk.LeftWasSkipped` | app/services/bulk_resend.py:127-140 | What is left when the last execution stops on an empty selection is what that selection passed over |
| `Bulk.MovesBounded` | app/services/bulk_resend.py:127-135 | All executions together take at most two steps for every row that was or became eligible, one each to end, and one more for each that dies |
| `Bulk.TakenAway` | app/ops.py:925-944 | A run: the only eligible row is resolved by an operator before the first selection and nobody requeues it |
| `Bulk.PassedOver` | app/services/bulk_resend.py:127-140 | A run: the only eligible row is held by another transaction at the only selection and nobody requeues it |
| `Bulk.DiesHolding` | app/services/bulk_resend.py:127-172 | A run: an execution dies holding its batch after the other has stopped, and the row stays eligible |
| `Bulk.ResentAndBack` | app/ops.py:946-979 | A run: a row resent by an operator and failed back by the worker became eligible and is still requeued in bulk exactly once |
| `Bulk.RequeuedWithoutBound` | app/services/bulk_resend.py:127-172 | If the worker fails the requeued row again each time, one execution requeues it any number of times and has still not stopped |
| `Bulk.PreviewExactly` | app/services/bulk_resend.py:87-99 | The preview is the number of those payments, the sum of their original amounts and the order ids of the first twenty |
| `Returns.EligibleAgain` | app/services/bulk_resend.py:69-84 | Reachable in idempotent mode for every n: a payment requeued in bulk n times and eligible again, with n attempts beyond the limit |
| `Returns.ResolvedIsGone` | app/ops.py:925-944 | Reachable: review resolve takes a payment that is eligible out of the bulk requeue's hands |
| `Returns.ResentAndBack` | app/ops.py:946-979 | Reachable: review resend takes it away too, and one failed attempt makes it eligible again with no bulk requeue in between |
| `Returns.ResolvedForGood` | app/adminbot/queries.py:29-45 | Every run: a payment in review is on the open list exactly when no review of it was ever resolved before; once resolved it is never within reach of the bulk requeue again |
| `Returns.LostAfterResend` | app/ops.py:925-979 | Reachable: resolved, resent and failed again, a payment is in review but on no list of open reviews and beyond the bulk requeue |
| `Attention.ResolvableExactlyListed` | app/services/stuck_payments.py:130-156 | Every reachable state: a resolution is accepted exactly for what the worklist shows and with the one code that fits its status |
| `Attention.ListedExactly` | app/services/stuck_payments.py:130-156 | Every reachable state: the worklist shows exactly the orders without a link, at least a minute old, that the trail leaves open |
| `Attention.RefusedExactly` | app/services/attention.py:531-602 | Every reachable state: each refusal exactly when due, and four that never occur |
| `Attention.RecordedFits` | app/services/attention.py:194-202 | Whatever anybody does: a resolution that is recorded fits the status its payment has at that step |
| `Attention.ClosedByTheTrail` | app/services/attention.py:374-419 | Every reachable state: an item is closed exactly when a resolution was recorded with no link failure after it |
| `Attention.OneResolutionPerFailure` | app/services/attention.py:749-816 | Between two recorded resolutions of a payment lies one of its link failures |
| `Attention.OpenUntilResolvedAgain` | app/services/attention.py:374-419 | Every run: an open item stays open until a resolution of it is recorded |
| `Attention.ResolutionIsInert` | app/services/attention.py:776-795 | Resolving leaves every payment's row and delivery untouched and applies only to a listed row with no link, verification or attempt |
| `Policies.PastSelectionStable` | app/services/fees.py:185-203 | Every run of set, schedule and cancel: the selection for an instant is fixed once all later operations read a clock beyond it |
| `Policies.SetKeepsPastExactly` | app/ops.py:305-318 | Every reachable state: `fee set` leaves all instants before its commit alone exactly when it commits at the clock it read or is outranked there by a higher id |
| `Policies.ScheduleKeepsPastExactly` | app/ops.py:305-318 | `fee schedule` does so exactly when it commits no later than the scheduled instant or is outranked there; ids are drawn in any order |
| `Policies.CancelKeepsPastExactly` | app/services/fees.py:185-203 | Cancel does so exactly when it commits no later than the policy's instant or the cancelled policy was outranked |
| `Policies.LateCancelReactivates` | app/services/fees.py:185-203 | A run of set and schedule after which a cancel that waited for the row lock past the policy's instant brings an older rate back for a past instant |
| `Snapshot.SnapshotConcatenates` | app/adminbot/queries.py:437-453 | The priority column orders the one statement as the review list followed by the pending list |
| `Snapshot.TwoQueries` | app/adminbot/queries.py:476-508 | Two bounded queries, concatenated and cut again, return exactly the same entries |
| `Snapshot.OneStatement` | app/adminbot/queries.py:400-473 | Its entries are the first `limit` of that order with their categories; its total is the count unless no row is returned |
| `Snapshot.SnapshotByRows` | app/adminbot/queries.py:400-473 | From the rows alone: up to `limit` of the payments that need an operator, reviews first, then by how long they wait, each with its reason, none left out that comes before one returned |
| `Snapshot.TotalExact` | app/adminbot/queries.py:437-455 | The total is the unbounded count exactly when the limit is positive or nothing matches |
| `Snapshot.ReviewPartition` | app/adminbot/queries.py:268-307 | Delivery reviews and other reviews partition the open ones, so the two lists add up |
| `SplitMessage.Split` | app/adminbot/format.py:100-121 | Over the limit: chunks within it that begin with a kept character and lie in the text in order with only newlines between them, so all other characters are kept in order; no chunk at all exactly for a text of newlines |
| `SplitMessage.NoChunksExactly` | app/adminbot/format.py:100-121 | Any such split is empty exactly when the text holds nothing but newlines |
| `ReplyDelivery.Reply.DeliverReplyChunks` | app/adminbot/reply_delivery.py:82-113 | For any transport: a legal log that ends with all chunks delivered, or, once nothing more may be tried, with the warning or a flood limit |
| `ReplyDelivery.WithinBudget` | app/adminbot/reply_delivery.py:97-113 | Every legal log: all pauses of one reply together stay within the budget |
| `ReplyDelivery.OverrunExactlyWhenNegative` | app/adminbot/reply_delivery.py:156-181 | For every d: flood limits classified as d seconds can make a reply wait longer than its budget exactly when d is negative |
| `ReplyDelivery.WarningIsLast` | app/adminbot/reply_delivery.py:107-112 | The warning comes at most once, last, and never after a flood limit |
| `Fees.ReportAddsUp` | app/adminbot/queries.py:659-673 | Report totals: payable = amount + fee, and fees differ from the exact percentages by at most half a unit per invoice |
| `Delivery.ResultOfReply` | app/services/notification.py:232-418 | From a reply to the recorded row: accepted exactly on 2xx, queued again exactly on a repeatable reply with attempts left and due exactly from the end of the delay, in review otherwise; the claim always ends |
| `Delivery.LifeCycleStep` | app/models.py:299-305 | One step of any actor: verification and its reference id are never rewritten, accepted is final, manual review is left only by an idempotent requeue of a verified payment, amounts never change, payer and link only while a link may still be issued |
| `Store.NextDue` | app/services/notification.py:158-175 | The claim query returns a verified, pending, unclaimed, unlocked row whose retry time is reached, none of them being earlier, or proves there is none |
| `Store.PaymentStore.ClaimNextDue` | app/services/notification.py:156-201 | That row gets the next attempt number, the claim's instant and worker and, on its first attempt, the start; one event; nothing else changes and the row stays reachable in the delivery machine |
| `Store.PaymentStore.MoveToManualReview` | app/services/notification.py:204-229 | The review columns, the cleared claim and one event |
| `Store.PaymentStore.ApplyAcceptedState` | app/services/notification.py:122-135 | The accepted columns and the cleared claim |
| `Store.PaymentStore.RecordAttemptResult` | app/services/notification.py:232-418 | The whole new row and the exact events told from the bot's reply, mode and attempt limit if the row still carries this claim; a discard event and no change otherwise |
| `Store.PaymentStore.ExecuteClaimedAttempt` | app/services/notification.py:421-449 | One send logged (none without a notifier), its classified result recorded with its events, and every other row and send log untouched |
| `Store.OldestStale` | app/services/notification.py:468-484 | The stale-claim query: distinct unlocked claims held for at least the timeout, oldest first, all of them when fewer than the limit |
| `Store.PaymentStore.ReleaseStaleClaims` | app/services/notification.py:452-563 | Only claims held for at least the timeout are released, the oldest first and all of them when the batch is not full; each row becomes what mode and attempt limit say, with its events, and no other row changes |
| `Store.PaymentStore.RecoverOne` | app/services/notification.py:488-556 | One recovered row, column by column, and its events in order |
| `Store.PaymentStore.WorkTurn` | app/services/notification.py:583-594 | One turn: a due payment no other due one precedes is claimed for its next attempt, its request is in the send log, and the outcome is recorded under that claim; or nothing is due |
| `Store.PaymentStore.RunWorkerPass` | app/services/notification.py:566-594 | The table after the recovery, of claims held for at least the timeout and all of them if fewer than the limit, and after each turn, every turn as above; the pass stops before its batch size only when nothing is due |
| `Store.PaymentStore.ExecuteManualAccept` | app/services/notification.py:627-728 | Accepted exactly when pending and verified, every written column named, attempts and HTTP status kept, one event; otherwise no change |
| `Store.PaymentStore.ReviewResolve` | app/ops.py:925-944 | Only in manual review; the review is closed, nothing about status, money or delivery changes and the row is no longer eligible for bulk requeue |
| `Store.PaymentStore.ReviewResend` | app/ops.py:946-979 | Requeued exactly when in review, verified and in idempotent mode; only status, retry time and claim are written, one event |
| `Store.PaymentStore.VerifyAndSettle` | app/services/verification.py:318-407 | Settled exactly while unverified and neither queued nor in review; verified exactly when the answer proves the payment, and then with that reference id, due at once; otherwise in review for the first check that failed, or only the error noted; the exact events of each, where not paid is its own event for a poller |
| `Bulk.RemainingEligible` | app/services/bulk_resend.py:119-135 | After the first k eligible rows are requeued the query returns exactly the rest, in the same order |
| `Bulk.TotalPermutation` | app/services/bulk_resend.py:87-99 | The reported total depends only on which rows are listed |
| `Store.PaymentStore.RequeueFailedDeliveries` | app/services/bulk_resend.py:102-200 | With nothing else running between its batches: every verified payment in unresolved review for running out of attempts or an ambiguous answer is put back in the queue at once with one event, no other row changes, none is left, and counts, amounts and order ids equal the preview's |
| `Store.NextBatch` | app/services/bulk_resend.py:127-140 | The selection: distinct requeueable rows nobody else holds, the longest in review first, all of them when fewer than the limit |
| `Store.PaymentStore.RequeueSelected` | app/services/bulk_resend.py:127-172 | One selection and commit on the table as it is then: exactly those rows requeued, one event each, their amounts totalled |
| `Store.BulkStateSpec` | app/services/bulk_resend.py:138-172 | The running table, total, order ids and events after any distinct batch are the requeued table, the sum, the first order ids and one event per row |
| `Bulk.CrowdNotStuck` | app/services/bulk_resend.py:127-135 | Until all executions have ended one of them can select or commit |
| `Bulk.CrowdProgress` | app/services/bulk_resend.py:119-135 | Every step of an execution decreases (rows left, executions free to select, executions alive) |
| `Alerts.AlertOutbox.CreateAlert` | app/adminbot/alerts.py:81-145 | Appends one alert, withheld exactly when one with its key that may be sent was created within the window before, due at once otherwise |
| `Alerts.AlertOutbox.ClaimDueAlerts` | app/adminbot/alerts.py:359-400 | The first `limit` sendable unlocked alerts by id, each claimed for its next attempt by this worker at this instant; every returned claim is live; no other alert changes |
| `Alerts.AlertOutbox.ReleaseStaleAlertClaims` | app/adminbot/alerts.py:323-356 | Exactly the unlocked alerts held for at least the timeout go back to the queue, due at once, and are counted; no other alert changes |
| `Alerts.AlertOutbox.RecordDeliveryResult` | app/adminbot/alerts.py:403-527 | Discarded without change exactly when the claim is no longer held, else the whole new row by outcome, attempts and delay |
| `Monitor.MonitorStore.HandleHealthy` | app/services/monitor_incidents.py:162-189 | The open incident is closed and, with alerting on, announced by one alert that is sent; afterwards the check has none |
| `Monitor.MonitorStore.Refresh` | app/services/monitor_incidents.py:235-325 | The whole update of the open incident and its one alert, column by column, with the transition it reports |
| `Monitor.MonitorStore.BeginUnhealthy` | app/services/monitor_incidents.py:192-196 | First transaction: the open incident is updated so and covered, or the process goes on to insert |
| `Monitor.MonitorStore.InsertIncident` | app/services/monitor_incidents.py:197-233 | The optimistic insert succeeds exactly when no open incident exists; the new row and its alert, column by column |
| `Monitor.MonitorStore.RetryUnhealthy` | app/services/monitor_incidents.py:208-218 | After a lost race the winner's incident is updated so and covered, or nothing happens when it is gone |
| `Identity.TelegramConflictIsOwnKey` | app/services/payer_identity.py:234-280 | In a valid table the number of a Telegram user can only be taken by that user's own key |
| `Identity.AdvanceKeepsTable` | app/services/payer_identity.py:234-321 | Each transaction of any resolver keeps keys and ids one-to-one and every key within its own range |
| `Identity.AdvanceSpec` | app/services/payer_identity.py:234-321 | Whatever others do, a resolver ends with the row of its own key, and collides only on the reserved id |
| `Identity.MappedKeyNoWrite` | app/services/payer_identity.py:244-248 | Resolving a mapped key reads that row and writes nothing |
| `Creation.LinkedRowOk` | app/services/payments.py:543-633 | The gateway's answer is stored under the requester's own Telegram id if there is one, a Telegram payer is never replaced, and the URL serves the request |
| `Creation.LockIsDeliveryStep` | app/services/payments.py:549-633 | The locked link transaction is a step the delivery machine allows |
| `Desk.PaymentDesk.ResolveTelegram` | app/services/payer_identity.py:234-280 | Succeeds exactly for an id in range that is not reserved, with that very id, writing only on first use; otherwise the matching error and no row |
| `Desk.PaymentDesk.Allocate` | app/services/payer_identity.py:296-321 | Inserts the first usable candidate of the order; gives up exactly when none of 10,000 is usable |
| `Desk.PaymentDesk.ResolveOrder` | app/services/payer_identity.py:283-321 | Fails exactly when the order is unmapped and has no usable candidate |
| `Desk.PaymentDesk.ResolvePayer` | app/services/payer_identity.py:324-356 | Succeeds exactly when the payer can be resolved, with the identity of the request's own key; otherwise the matching error and no row |
| `Desk.PaymentDesk.InsertPayment` | app/services/payments.py:156-214 | One fresh row with its two events exactly when neither the order nor the random gateway order id is taken |
| `Desk.PaymentDesk.EnsurePaymentRow` | app/services/payments.py:97-214 | An existing order is left alone; each refusal exactly when due (amount or rate out of range, beyond the maximum, no payer), before any row and, for the first two, any identity; else one row with the priced snapshot |
| `Desk.PaymentDesk.LockedSection` | app/services/payments.py:459-633 | Each refusal exactly when the order's columns call for it; a row that is owed a link gets what getLink answers, column by column and with its events, and the call is told; every other row is untouched, and a death at the gateway changes nothing |
| `Desk.PaymentDesk.CreatePayment` | app/services/payments.py:393-633 | Ends with exactly one answer (none if the process dies), the one the order's row calls for: an order without a row is created and linked or refused for its amount, maximum or payer; a row that is owed a link, also after a failed getLink, gets the one the gateway gives; a URL is always the one on the row, for the requested amount and not another Telegram user's |
| `RateLimit.AcceptedKeeps` | app/ratelimit.py:39-47 | Accepting keeps the history ordered and any limit+1 accepted events more than a window apart |
| `RateLimit.PopStale` | app/ratelimit.py:34-37 | Popping from the left turns the window of an earlier call into the window of the whole history at `now` |
| `RateLimit.SlidingWindowLimiter.Allow` | app/ratelimit.py:39-47 | True exactly when the closed window that ends now holds fewer than `limit` accepted events of the full history, and then recorded |
| `RateLimit.SlidingWindowLimiter.RetryAfterNow` | app/ratelimit.py:49-65 | The delay computed from the full history, zero when there is room |
| `LimiterStore.TouchedIsLast` | app/ratelimit.py:89-99 | Each use keeps the bounded list the tail of the unbounded recency list |
| `LimiterStore.BoundedLimiterStore.Allow` | app/ratelimit.py:101-102 | Answers by the key's remembered history, empty after eviction; other keys untouched |
| `LimiterStore.BoundedLimiterStore.RetryAfterNow` | app/ratelimit.py:104-105 | The delay from the key's remembered history; counts as a use |
| `Fees.NearestTiesUp` | app/services/fees.py:43-55 | No integer is nearer to the exact percentage, and an equally near one is smaller |
| `Fees.SnapshotUnique` | app/services/fees.py:43-55 | The nearest-integer condition determines the result of calculate_fee |
| `Fees.FeeBounds` | app/services/fees.py:43-55 | 0 <= fee <= amount, with equality at 0% and 100% |
| `Fees.FeeMonotone` | app/services/fees.py:43-55 | A larger amount or rate never has a smaller fee |
| `Fees.FeeOfSplit` | app/services/fees.py:43-55 | Splitting an invoice changes the total fee by at most one |
| `Fees.ExactAtOneRate` | app/adminbot/queries.py:659-673 | At one rate the exact fees are that rate of the turnover |
| `Fees.CollectedBounded` | app/services/payments.py:133-154 | n stored rows collect at most n times the maximum |
| `Policies.SelectIsMaximum` | app/services/fees.py:84-97 | The selected policy is active and beats every other active one by (effective_at, id) |
| `Policies.SelectedUnique` | app/services/fees.py:84-97 | Only one policy satisfies that, ids being unique |
| `Policies.PolicyTable.Create` | app/services/fees.py:119-164 | The next id is drawn; the new policy is selected at its own instant and nothing before it changes |
| `Policies.PolicyTable.SetRate` | app/services/fees.py:119-164 | Valid rates count from now on; no earlier instant changes |
| `Policies.PolicyTable.ScheduleRate` | app/ops.py:305-318 | Only future instants; the selection up to now is unchanged |
| `Policies.PolicyTable.CancelPolicy` | app/services/fees.py:172-217 | Only an uncancelled policy of the future, each refusal for its reason; the selection up to now is unchanged |
| `Snapshot.LatestEntry` | app/adminbot/queries.py:211-257 | The age anchor's event part is the maximum over the payment's queue-entry events |
| `Attention.AttentionDesk.ResolveAttention` | app/services/attention.py:700-832 | Accepted exactly for a listed item, the code of its status, and a note and actor that say something; each refusal it shares with the list exactly when due, with no change; else one event, two columns, and the stripped note and actor cut to length |
| `SplitMessage.NewlinesVanish` | app/adminbot/format.py:100-121 | Two newlines against a limit of one: the only such split is empty |
| `SplitMessage.LaidKeepsCharacters` | app/adminbot/format.py:100-121 | Such chunks hold every character that is not a newline, in order |
| `ReplyDelivery.WaitedWithinBudget` | app/adminbot/reply_delivery.py:126-206 | Time waited exceeds the budget at most by what negative delays gave back, nothing if there are none |
| `ReplyDelivery.AtMostThreeTries` | app/adminbot/reply_delivery.py:126-206 | No chunk is sent more than three times |
| `ReplyDelivery.DeliveredPrefix` | app/adminbot/reply_delivery.py:97-113 | A chunk is sent only when all earlier ones arrived |
| `ReplyDelivery.Reply.Attempt` | app/adminbot/reply_delivery.py:126-206 | One attempt and its pause follow the protocol; the chunk is retried only within the limits |
| `ReplyDelivery.Reply.DeliverOneChunk` | app/adminbot/reply_delivery.py:116-206 | Ends with the chunk's last send, delivered or abandoned, other chunks untouched |
| `Attempts.RecoveredIsReleased` | app/services/notification.py:488-551 | Stale recovery writes the row told from mode, attempts and attempt limit, with the delay of the backoff table |
| `Attempts.EligibleAfterResult` | app/services/bulk_resend.py:40-84 | A recorded attempt leaves its payment to the bulk requeue exactly when it ran out of attempts on a repeatable reply or, in safe mode, got an ambiguous error, and no review was resolved |
| `Attempts.OtherReviewsExcluded` | app/services/bulk_resend.py:40-84 | A review after any other HTTP status, without a notifier or for a gateway mismatch is never eligible |
| `Store.SettledByAnswer` | app/services/verification.py:98-215 | Every column a settlement writes, by the gateway's answer and the first check it fails |
| `Bulk.ListedOnceInOrder` | app/services/bulk_resend.py:69-84 | The query lists each verified payment in unresolved review for one of the two reasons once, unknown review times first, then the longest in review, then by id |
| `Bulk.AllRequeued` | app/services/bulk_resend.py:138-154 | After all of them are requeued none is left, each is due at once with everything else as it was, and no other row has changed |
| `Incidents.RefreshedByColumns` | app/services/monitor_incidents.py:235-325 | What a cycle leaves of an open incident: the reading, and one alert of the reading's severity exactly when alerting is on and it got worse, nothing was alerted or the last alert failed for good |
| `Incidents.OpenedByColumns` | app/services/monitor_incidents.py:197-233 | Every reachable state: the new incident and its alert, which is sent |
| `LimiterStore.StoreRoomExactly` | app/ratelimit.py:101-102 | The same about what the store still remembers of a key |
| `Snapshot.TotalByRows` | app/adminbot/queries.py:437-453 | The number it counts is the number of payments that need an operator |
| `Store.JudgeVerified` | app/services/verification.py:98-215 | The verdict is verified exactly on a successful answer with the full payable amount, the stored payer and a reference id no other row carries |
| `Bulk.EligibleSpec` | app/services/bulk_resend.py:69-84 | The query lists exactly the rows its predicate admits, distinct and in its order |
| `Attempts.DelayIsPause` | app/services/notification.py:75-82 | The delay is one, two, five, ten or thirty minutes or an hour by attempt, scaled by the jitter, or what the 429 asked for if that is longer |
| `Alerts.AlertDelaysGrow` | app/adminbot/alerts.py:35-35 | Every further attempt of an alert waits longer, whatever the jitter of each, up to the sixth; then half an hour up to jitter |
| `Alerts.RecordedIsWritten` | app/adminbot/alerts.py:461-527 | The whole recorded row by outcome, attempts and the backoff table |
| `Snapshot.AnchorIsWait` | app/adminbot/queries.py:211-257 | A pending payment waits since it last entered the queue, else since its verification, else since its creation |
| `Attention.StripExactly` | app/services/attention.py:780-795 | Stripping takes off the spaces at both ends and nothing else |
| `Attention.FinancialReasonFirst` | app/services/attention.py:547-602 | A financially meaningful payment is refused for that reason, never for its status, age or resolution code |
| `Incidents.SuppressedStaysSilent` | app/services/monitor_incidents.py:108-125 | Once the last alert was suppressed, no cycle that is not worse alerts again |
| `Alerts.ResultOfOutcome` | app/adminbot/alerts.py:403-527 | Delivered exactly when anybody received it, rescheduled exactly on a retryable failure with attempts left and due exactly from the end of the delay, failed otherwise |
| `BotOutcome.IdempotentRetries` | app/bot.py:99-178 | Idempotent mode retries those, the four 5xx codes and every ambiguous transport error, and nothing else |
| `BotOutcome.SafeRetriesExactlyUnprocessed` | app/bot.py:99-178 | Safe mode retries exactly the replies that prove the bot did nothing (connect failure, connect or pool timeout, 429) and accepts exactly 2xx |
| `BotOutcome.ClassifyResponse` | app/bot.py:99-144 | Kind of an HTTP status by range, and Retry-After kept only where it is used |
| `BotOutcome.ClassifyTransportError` | app/bot.py:147-178 | A transport error is retryable exactly when no connection was made, otherwise ambiguous; never accepted |
| `Delivery.RetryDelay` | app/services/notification.py:75-82 | The delay is positive and never shorter than a Retry-After |
| `Alerts.AlertRetryDelay` | app/adminbot/alerts.py:313-320 | The delay is positive and never shorter than what Telegram asked for |
| `Alerts.NewAlert` | app/adminbot/alerts.py:81-125 | A new alert is suppressed exactly when an unsuppressed alert with its key lies in the window |
| `Identity.Candidate` | app/services/payer_identity.py:154-165 | Every derived id lies in the reserved range, above all Telegram ids and within 63 bits |
| `Attention.AlreadyResolvedExactly` | app/services/attention.py:531-567 | "Already resolved" is refused exactly when the worklist predicate is false |
| `Attention.FailureReopens` | app/services/payments.py:595-610 | A failed link retry reopens the item whatever was resolved before |
| `Attention.SafeNotBlank` | app/services/attention.py:780-795 | What is stored is the stripped text or its first characters up to the limit, and blank only if the given text was |
| `Store.UniqueReferencesSpec` | app/models.py:196-200 | The stored uniqueness predicate is pairwise distinctness of reference ids |
| `SplitMessage.Lines` | app/adminbot/format.py:106-106 | Splitting at newlines: no line holds one, and joining gives the text back |
| `Fees.CalculateFee` | app/services/fees.py:43-55 | Refused exactly out of range; otherwise a snapshot whose fee is the nearest integer |

## Left out

- HTTP clients, Telegram transport, FastAPI routing, HTML, CLI rendering, logging and redaction: input and output without protocol state.
- HMAC, SHA-256 and tokens: keys stand for their hashes and the derived digest is an arbitrary function.
- Gateway order ids and callback tokens: only the possibility that a random gateway order id is taken is kept.
- Parsing of `Retry-After`, rate percentages and request bodies: every result takes the parsed value, or its absence, as arbitrary input, so none depends on how text becomes a number.
- Historical payer rows (retired hash scheme, untyped rows): runs start from empty tables, so the retired-scheme shortcut never fires.
- Card digits and the first-payment guard, which settlement also writes.
- Reconciliation scheduling, waiting and expired categories, heartbeats and daily report texts.
- `review acknowledge`, bulk resolution of reviews and the installer's `--ensure-initial` policy.
- Event payloads, actors and request ids; alert events in the audit trail.
- Monitor checks themselves: a reading, the alert switches and the deduplication window are inputs of a cycle.
- SQL leaves ties in `manual_review_payments` and the pending query unspecified; the model breaks them by id, as the one-statement form does.
- RateLimit.SlidingWindowLimiter.Allow: calls come in clock order, also in the store; the code reads the clock before it takes its lock, so two threads can enter slightly out of order.
- LimiterStore.BoundedLimiterStore.Allow: the windows of the store are values, not limiter objects, so aliasing of a limiter that another thread still holds after its eviction is not captured.
- Store.PaymentStore.RunWorkerPass: claims, sends and records back to back, with the mode fixed; other actors in between are covered by the state machine each of its steps belongs to, and a changing mode by `ModeSwitch`.
- Store.PaymentStore.RequeueFailedDeliveries: runs its batches back to back on a table nothing else writes; one selection and commit on a shared table is `Store.PaymentStore.RequeueSelected`, and what holds across several of them with others in between is what the crowd machine of `Bulk` states.
- Desk.PaymentDesk.CreatePayment: runs its transactions back to back; interleavings are covered by the state machine each of its commits takes a step of.
- ReplyDelivery.Reply.DeliverReplyChunks: a reply that is cancelled while it is being sent is not modelled.
