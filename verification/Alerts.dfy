/** The administrator alert outbox (app/adminbot/alerts.py): creation with a
    deduplication window, and delivery under the same claim protocol as payments. */
module Alerts {
  import opened Common
  import opened Query
  import Lease
  import Runs

  datatype Severity = Info | Warning | Error | Critical

  /** Deduplication keys, one constructor per format string that builds them. */
  datatype Key =
    | OpenedKey(check: string, incident: nat)
    | ResolvedKey(check: string, incident: nat)
    | EscalatedKey(check: string, incident: nat, severity: Severity, at: Time)
    | CatchupKey(check: string, incident: nat, severity: Severity, at: Time)
    | EventKey(text: string)

  datatype AlertStatus = Waiting | Sending | Delivered | RetryScheduled | Failed | Suppressed

  datatype Alert = Alert(
    severity: Severity,
    key: Option<Key>,
    status: AlertStatus,
    attempts: nat,
    nextRetryAt: Option<Time>,
    claimedAt: Option<Time>,
    claimedBy: Option<string>,
    deliveredAt: Option<Time>,
    errorCode: Option<string>,
    createdAt: Time)

  datatype Config = Config(maxAttempts: int, claimTimeout: Time)

  ghost predicate ValidConfig(cfg: Config) {
    cfg.maxAttempts > 0 && cfg.claimTimeout > 0.0
  }

  /** The aggregated outcome of sending one alert to every administrator. */
  datatype Outcome = Outcome(delivered: nat, retryable: bool, retryAfter: Option<int>, errorCode: Option<string>)

  // ----- Creation --------------------------------------------------------------------------

  /** A recent alert with this key that was not itself suppressed. */
  predicate Duplicates(a: Alert, key: Key, cutoff: Time) {
    a.key == Some(key) && a.createdAt >= cutoff && a.status != Suppressed
  }

  predicate HasDuplicate(alerts: seq<Alert>, key: Option<Key>, cutoff: Time) {
    key.Some? && exists i | 0 <= i < |alerts| :: Duplicates(alerts[i], key.value, cutoff)
  }

  /** The row create_alert inserts. */
  function NewAlert(alerts: seq<Alert>, severity: Severity, key: Option<Key>, windowMinutes: int, now: Time): (a: Alert)
    ensures a.status == Waiting || a.status == Suppressed
    ensures a.status == Suppressed <==> HasDuplicate(alerts, key, now - 60.0 * windowMinutes as real)
  {
    if HasDuplicate(alerts, key, now - 60.0 * windowMinutes as real)
    then Alert(severity, key, Suppressed, 0, None, None, None, None, None, now)
    else Alert(severity, key, Waiting, 0, Some(now), None, None, None, None, now)
  }

  // ----- What the deduplication window guarantees -----------------------------------------------------

  /** An alert with this key that may be sent was created within the window before `now`. */
  ghost predicate Recent(alerts: seq<Alert>, key: Option<Key>, minutes: int, now: Time) {
    exists i :: 0 <= i < |alerts| && alerts[i].key == key && alerts[i].status != Suppressed
                && now - alerts[i].createdAt <= 60.0 * minutes as real
  }

  /** For one key and one window: an alert is withheld exactly when an earlier one came within the
      window before it. */
  ghost predicate Deduplicated(alerts: seq<Alert>, key: Key, minutes: int) {
    forall i | 0 <= i < |alerts| && alerts[i].key == Some(key) ::
      alerts[i].status == Suppressed <==> Recent(alerts[..i], Some(key), minutes, alerts[i].createdAt)
  }

  lemma DuplicateIsRecent(alerts: seq<Alert>, key: Option<Key>, minutes: int, now: Time)
    ensures HasDuplicate(alerts, key, now - 60.0 * minutes as real) <==> key.Some? && Recent(alerts, key, minutes, now)
  {
    if key.Some? && Recent(alerts, key, minutes, now) {
      var i :| 0 <= i < |alerts| && alerts[i].key == key && alerts[i].status != Suppressed
        && now - alerts[i].createdAt <= 60.0 * minutes as real;
      assert Duplicates(alerts[i], key.value, now - 60.0 * minutes as real);
    }
  }

  /** create_alert keeps it: any two alerts with one key that may be sent are more than the window
      apart, and none is withheld without one that covers it. */
  lemma CreateKeepsDeduplicated(alerts: seq<Alert>, severity: Severity, key: Key, minutes: int, now: Time)
    requires Deduplicated(alerts, key, minutes)
    ensures var after := alerts + [NewAlert(alerts, severity, Some(key), minutes, now)];
      && Deduplicated(after, key, minutes)
      && after[|alerts|].createdAt == now && after[|alerts|].key == Some(key)
      && forall i, j | 0 <= i < j < |after| && after[i].key == after[j].key == Some(key)
           && after[i].status != Suppressed && after[j].status != Suppressed ::
           after[j].createdAt - after[i].createdAt > 60.0 * minutes as real
  {
    var after := alerts + [NewAlert(alerts, severity, Some(key), minutes, now)];
    DuplicateIsRecent(alerts, Some(key), minutes, now);
    forall i | 0 <= i < |after| && after[i].key == Some(key)
      ensures after[i].status == Suppressed <==> Recent(after[..i], Some(key), minutes, after[i].createdAt)
    {
      assert after[..i] == alerts[..i];
      assert alerts[..|alerts|] == alerts;
    }
    forall i, j | 0 <= i < j < |after| && after[i].key == after[j].key == Some(key)
      && after[i].status != Suppressed && after[j].status != Suppressed
      ensures after[j].createdAt - after[i].createdAt > 60.0 * minutes as real
    {
      assert after[..j][i] == after[i];
    }
  }

  // ----- Row transitions -----------------------------------------------------------------------

  const ALERT_RETRY_DELAYS: seq<real> := [30.0, 60.0, 120.0, 300.0, 900.0, 1800.0]

  function AlertRetryDelay(attemptsCompleted: int, retryAfter: Option<int>, jitter: real): (d: Time)
    ensures retryAfter.Some? ==> d >= retryAfter.value as real
    ensures jitter > 0.0 ==> d > 0.0
  {
    var index := Min(Max(attemptsCompleted, 1), |ALERT_RETRY_DELAYS|) - 1;
    var delay := ALERT_RETRY_DELAYS[index] * jitter;
    if retryAfter.Some? && retryAfter.value as real > delay then retryAfter.value as real else delay
  }

  /** Half a minute, one, two, five, fifteen and thirty minutes. */
  ghost function Backoff(attempts: int): (t: Time) {
    if attempts <= 1 then 30.0
    else if attempts == 2 then 60.0
    else if attempts == 3 then 120.0
    else if attempts == 4 then 300.0
    else if attempts == 5 then 900.0
    else 1800.0
  }

  lemma DelayIsBackoff(attempts: int, asked: Option<int>, jitter: real)
    ensures var base := Backoff(attempts) * jitter;
            AlertRetryDelay(attempts, asked, jitter) == if asked.Some? && asked.value as real > base then asked.value as real else base
  {
    var index := Min(Max(attempts, 1), 6) - 1;
    assert ALERT_RETRY_DELAYS[index] == Backoff(attempts);
  }

  /** Every further attempt waits longer, whatever the jitter of each, up to the sixth. */
  lemma AlertDelaysGrow(a: int, b: int, jitter: real, other: real)
    requires 1 <= a < b && 0.85 <= jitter <= 1.15 && 0.85 <= other <= 1.15
    ensures a <= 5 ==> AlertRetryDelay(a, None, jitter) < AlertRetryDelay(b, None, other)
    ensures a >= 6 ==> AlertRetryDelay(a, None, jitter) == 1800.0 * jitter && AlertRetryDelay(b, None, other) == 1800.0 * other
  {
    DelayIsBackoff(a, None, jitter);
    DelayIsBackoff(b, None, other);
    assert a <= 5 ==> 2.0 * Backoff(a) <= Backoff(b);
    assert Backoff(a) * (1.15 - jitter) >= 0.0 && Backoff(b) * (other - 0.85) >= 0.0;
  }

  predicate DueAlert(a: Alert, now: Time) {
    && (a.status == Waiting || a.status == RetryScheduled)
    && (a.nextRetryAt.None? || a.nextRetryAt.value <= now)
    && a.claimedAt.None?
  }

  predicate StaleAlert(cfg: Config, a: Alert, now: Time) {
    a.status == Sending && a.claimedAt.Some? && a.claimedAt.value <= now - cfg.claimTimeout
  }

  function ClaimedAlert(a: Alert, worker: string, now: Time): (b: Alert) {
    a.(status := Sending, claimedAt := Some(now), claimedBy := Some(worker), attempts := a.attempts + 1)
  }

  function ReleasedAlert(a: Alert, now: Time): (b: Alert) {
    a.(status := Waiting, claimedAt := None, claimedBy := None, nextRetryAt := Some(now))
  }

  predicate OwnsAlert(a: Alert, worker: string, attempt: nat) {
    a.status == Sending && a.claimedBy == Some(worker) && a.attempts == attempt && a.claimedAt.Some?
  }

  function RecordedAlert(cfg: Config, a: Alert, o: Outcome, attempt: nat, now: Time, jitter: real): (b: Alert) {
    var r := a.(claimedAt := None, claimedBy := None, errorCode := o.errorCode);
    if o.delivered > 0 then
      r.(status := Delivered, deliveredAt := Some(now), nextRetryAt := None)
    else if o.retryable && attempt < cfg.maxAttempts then
      r.(status := RetryScheduled, nextRetryAt := Some(now + AlertRetryDelay(attempt, o.retryAfter, jitter)))
    else
      r.(status := Failed, nextRetryAt := None)
  }

  /** From the aggregated outcome to the recorded row: delivered when anybody received it,
      scheduled exactly when a retryable failure left attempts over, and due then only after
      the delay; failed for good otherwise. The claim always ends. */
  lemma ResultOfOutcome(cfg: Config, a: Alert, o: Outcome, attempt: nat, now: Time, jitter: real, t: Time)
    ensures var b := RecordedAlert(cfg, a, o, attempt, now, jitter);
      && b.claimedAt.None? && b.claimedBy.None? && b.attempts == a.attempts && b.key == a.key
      && (b.status == Delivered <==> o.delivered > 0)
      && (b.status == RetryScheduled <==> o.delivered == 0 && o.retryable && attempt < cfg.maxAttempts)
      && (b.status == Delivered || b.status == RetryScheduled || b.status == Failed)
      && (b.status == RetryScheduled ==> (DueAlert(b, t) <==> t >= now + AlertRetryDelay(attempt, o.retryAfter, jitter)))
  {
  }

  // ----- The state machine of one alert ----------------------------------------------------------

  /** The row, the claims worker processes still hold, the settlement log and the number of
      stale claims released although the last permitted attempt had been used. */
  datatype Flow = Flow(row: Alert, tokens: map<nat, string>, settled: seq<nat>, overruns: nat)

  datatype Action =
    | Claim(worker: string, at: Time)
    | Record(attempt: nat, outcome: Outcome, at: Time, jitter: real)
    | Crash(attempt: nat)
    | Release(at: Time)

  ghost predicate Enabled(cfg: Config, f: Flow, a: Action) {
    match a
    case Claim(_, now) => DueAlert(f.row, now)
    case Record(n, _, _, _) => n in f.tokens
    case Crash(n) => n in f.tokens
    case Release(now) => StaleAlert(cfg, f.row, now)
  }

  ghost function Apply(cfg: Config, f: Flow, a: Action): (g: Flow)
    requires Enabled(cfg, f, a)
  {
    match a
    case Claim(w, now) =>
      f.(row := ClaimedAlert(f.row, w, now), tokens := f.tokens[f.row.attempts + 1 := w])
    case Record(n, o, now, jitter) =>
      var done := f.(tokens := f.tokens - {n});
      if OwnsAlert(f.row, f.tokens[n], n) then
        done.(row := RecordedAlert(cfg, f.row, o, n, now, jitter), settled := f.settled + [n])
      else done
    case Crash(n) => f.(tokens := f.tokens - {n})
    case Release(now) =>
      f.(row := ReleasedAlert(f.row, now), settled := f.settled + [f.row.attempts],
         overruns := if f.row.attempts >= cfg.maxAttempts then f.overruns + 1 else f.overruns)
  }

  ghost predicate InitRow(a: Alert) {
    && (a.status == Waiting || a.status == Suppressed)
    && a.attempts == 0 && a.claimedAt.None? && a.claimedBy.None?
  }

  ghost predicate Init(f: Flow) {
    InitRow(f.row) && f == Flow(f.row, map[], [], 0)
  }

  ghost predicate Next(cfg: Config, f: Flow, g: Flow) {
    exists a :: Enabled(cfg, f, a) && g == Apply(cfg, f, a)
  }

  ghost function Start(): (p: Flow -> bool) {
    f => Init(f)
  }

  ghost function Steps(cfg: Config): (p: (Flow, Flow) -> bool) {
    (f: Flow, g: Flow) => Next(cfg, f, g)
  }

  ghost predicate IsRun(cfg: Config, run: seq<Flow>) {
    Runs.IsRun(Start(), Steps(cfg), run)
  }

  ghost predicate Reachable(cfg: Config, f: Flow) {
    Runs.Reachable(Start(), Steps(cfg), f)
  }

  ghost predicate RowInv(a: Alert) {
    && (a.claimedAt.Some? <==> a.claimedBy.Some?)
    && (a.claimedAt.Some? <==> a.status == Sending)
    && (a.status == Suppressed ==> a.attempts == 0)
  }

  ghost predicate Inv(cfg: Config, f: Flow) {
    && RowInv(f.row)
    && (forall n | n in f.tokens :: 1 <= n <= f.row.attempts)
    && (f.row.status == Sending && f.row.attempts in f.tokens ==> Some(f.tokens[f.row.attempts]) == f.row.claimedBy)
    && f.row.attempts <= cfg.maxAttempts + f.overruns
    && (f.row.status == Waiting || f.row.status == RetryScheduled ==> f.row.attempts < cfg.maxAttempts + f.overruns)
    && (f.overruns > 0 ==> f.row.attempts >= cfg.maxAttempts)
  }

  ghost function Invariant(cfg: Config): (p: Flow -> bool) {
    f => Inv(cfg, f)
  }

  lemma InvStep(cfg: Config, f: Flow, a: Action)
    requires ValidConfig(cfg) && Inv(cfg, f) && Enabled(cfg, f, a)
    ensures Inv(cfg, Apply(cfg, f, a))
  {
  }

  lemma InvInductive(cfg: Config)
    requires ValidConfig(cfg)
    ensures Runs.Inductive(Start(), Steps(cfg), Invariant(cfg))
  {
    forall f, g | Inv(cfg, f) && Next(cfg, f, g) ensures Inv(cfg, g) {
      var a :| Enabled(cfg, f, a) && g == Apply(cfg, f, a);
      InvStep(cfg, f, a);
    }
  }

  predicate Terminal(a: Alert) {
    a.status == Delivered || a.status == Failed || a.status == Suppressed
  }

  /** What the rest of the system may rely on: the key, severity and creation time of an
      alert are fixed, suppression is decided at creation, and a terminal row is frozen. */
  ghost predicate Evolves(a: Alert, b: Alert) {
    && b.severity == a.severity && b.key == a.key && b.createdAt == a.createdAt
    && (a.status == Suppressed <==> b.status == Suppressed)
    && (Terminal(a) ==> b == a)
  }

  lemma EvolvesStep(cfg: Config, f: Flow, g: Flow)
    requires RowInv(f.row) && Next(cfg, f, g)
    ensures Evolves(f.row, g.row)
  {
  }

  /** Over every run, delivered, failed and suppressed alerts never change again. */
  lemma TerminalFrozen(cfg: Config, run: seq<Flow>, j: nat, k: nat)
    requires ValidConfig(cfg) && IsRun(cfg, run) && j <= k < |run|
    ensures Evolves(run[j].row, run[k].row)
    ensures Terminal(run[j].row) ==> run[k].row == run[j].row
  {
    InvInductive(cfg);
    var rel := (f: Flow, g: Flow) => Evolves(f.row, g.row);
    forall f, g, h | Inv(cfg, g) && rel(f, g) && Next(cfg, g, h) ensures rel(f, h) {
      EvolvesStep(cfg, g, h);
    }
    Runs.Onward(Start(), Steps(cfg), Invariant(cfg), rel, run, j, k);
  }

  // ----- Lease refinement ---------------------------------------------------------------------------

  ghost function AsLease(f: Flow): (s: Lease.State) {
    Lease.State(
      if f.row.status == Waiting || f.row.status == RetryScheduled then Lease.Idle
      else if f.row.claimedBy.Some? then Lease.Held(f.row.claimedBy.value)
      else Lease.Closed,
      f.row.attempts,
      f.settled)
  }

  /** The same lease as payments, except that a closed alert is never reopened. */
  lemma RefinesLeaseStep(cfg: Config, f: Flow, g: Flow)
    requires RowInv(f.row) && Next(cfg, f, g)
    ensures Lease.OneWayNext(AsLease(f), AsLease(g))
  {
  }

  ghost function LeaseRun(run: seq<Flow>): (s: seq<Lease.State>)
    ensures |s| == |run|
    ensures forall i | 0 <= i < |run| :: s[i] == AsLease(run[i])
  {
    seq(|run|, i requires 0 <= i < |run| => AsLease(run[i]))
  }

  lemma RefinesLease(cfg: Config, run: seq<Flow>)
    requires ValidConfig(cfg) && IsRun(cfg, run)
    ensures Lease.IsRun(LeaseRun(run))
  {
    InvInductive(cfg);
    forall f, g | Inv(cfg, f) && Next(cfg, f, g) ensures Lease.Next(AsLease(f), AsLease(g)) {
      RefinesLeaseStep(cfg, f, g);
    }
    Runs.MapRun(Start(), Steps(cfg), Invariant(cfg), run, (f: Flow) => AsLease(f), Lease.Start(), Lease.Steps(), LeaseRun(run));
  }

  /** Over every run, each delivery attempt is settled at most once. */
  lemma AttemptSettledAtMostOnce(cfg: Config, run: seq<Flow>, j: nat, k: nat)
    requires ValidConfig(cfg) && IsRun(cfg, run) && j <= k < |run|
    ensures Distinct(run[k].settled) && run[j].settled <= run[k].settled
  {
    RefinesLease(cfg, run);
    Lease.SettledAtMostOnce(LeaseRun(run), j, k);
  }

  /** A late result never touches the row, even when the same worker id holds it again. */
  lemma LateResultDiscarded(cfg: Config, f: Flow, a: Action)
    requires ValidConfig(cfg) && Reachable(cfg, f) && Enabled(cfg, f, a) && a.Record?
    ensures OwnsAlert(f.row, f.tokens[a.attempt], a.attempt) <==> f.row.status == Sending && f.row.attempts == a.attempt
    ensures a.attempt in f.settled || a.attempt != f.row.attempts ==>
              Apply(cfg, f, a).row == f.row && Apply(cfg, f, a).settled == f.settled
  {
    InvInductive(cfg);
    Runs.ReachableInv(Start(), Steps(cfg), Invariant(cfg), f);
    var run :| Runs.IsRun(Start(), Steps(cfg), run) && run[|run| - 1] == f;
    RefinesLease(cfg, run);
    Lease.SettledAtMostOnce(LeaseRun(run), |run| - 1, |run| - 1);
  }

  // ----- How long a claim is left to its worker ----------------------------------------------------------

  /** Step i of the run is the claim, taken at t, of attempt n. */
  ghost predicate ClaimedAt(cfg: Config, run: seq<Flow>, i: nat, n: nat, t: Time) {
    && i + 1 < |run|
    && run[i].row.attempts + 1 == n == run[i + 1].row.attempts
    && exists worker :: Enabled(cfg, run[i], Claim(worker, t)) && run[i + 1] == Apply(cfg, run[i], Claim(worker, t))
  }

  lemma {:induction false} ClaimBegan(cfg: Config, run: seq<Flow>, k: nat) returns (i: nat)
    requires IsRun(cfg, run) && k < |run| && run[k].row.claimedAt.Some?
    ensures i < k && ClaimedAt(cfg, run, i, run[k].row.attempts, run[k].row.claimedAt.value)
  {
    assert Start()(run[0]);
    assert Steps(cfg)(run[k - 1], run[k]);
    var a :| Enabled(cfg, run[k - 1], a) && run[k] == Apply(cfg, run[k - 1], a);
    if a.Claim? {
      i := k - 1;
      assert Apply(cfg, run[i], Claim(a.worker, a.at)) == run[i + 1];
    } else {
      i := ClaimBegan(cfg, run, k - 1);
    }
  }

  /** Over every run, an alert being sent can be taken from its worker exactly from claim_timeout
      after the instant at which that attempt was claimed. */
  lemma StaleOnlyAfterTimeout(cfg: Config, run: seq<Flow>, k: nat, now: Time)
    requires ValidConfig(cfg) && IsRun(cfg, run) && k < |run| && run[k].row.status == Sending
    ensures exists i: nat, t: Time ::
              && i < k && ClaimedAt(cfg, run, i, run[k].row.attempts, t)
              && (Enabled(cfg, run[k], Release(now)) <==> now >= t + cfg.claimTimeout)
  {
    InvInductive(cfg);
    Runs.Always(Start(), Steps(cfg), Invariant(cfg), run, k);
    var i := ClaimBegan(cfg, run, k);
  }

  // ----- How often an alert can be claimed ---------------------------------------------------------------

  lemma ClaimsBounded(cfg: Config, f: Flow)
    requires ValidConfig(cfg) && Reachable(cfg, f)
    ensures f.row.attempts <= cfg.maxAttempts + f.overruns
  {
    InvInductive(cfg);
    Runs.ReachableInv(Start(), Steps(cfg), Invariant(cfg), f);
  }

  /** release_stale_alert_claims on a claim whose attempt was the last permitted one. */
  ghost predicate OverrunAt(run: seq<Flow>, j: nat) {
    j + 1 < |run| && run[j + 1].overruns == run[j].overruns + 1
  }

  ghost predicate ClaimAt(run: seq<Flow>, i: nat) {
    i + 1 < |run| && run[i + 1].row.attempts == run[i].row.attempts + 1
  }

  /** The two numbers the attempt limit is about. */
  datatype Tally = Tally(attempts: nat, overruns: nat)

  ghost function TallyOf(f: Flow): (t: Tally) {
    Tally(f.row.attempts, f.overruns)
  }

  /** Attempts grow by claims, overruns by releases at the limit, and only an alert with an
      overrun is claimed beyond the limit. */
  ghost predicate TallyStep(max: int, s: Tally, t: Tally) {
    && (t.attempts == s.attempts || t.attempts == s.attempts + 1)
    && (t.overruns == s.overruns || (t.overruns == s.overruns + 1 && t.attempts == s.attempts >= max))
    && (t.attempts > max >= s.attempts ==> s.overruns > 0)
  }

  lemma CountStep(cfg: Config, f: Flow, g: Flow)
    requires ValidConfig(cfg) && Inv(cfg, f) && Next(cfg, f, g)
    ensures TallyStep(cfg.maxAttempts, TallyOf(f), TallyOf(g))
  {
  }

  ghost predicate TallyRun(max: int, ts: seq<Tally>) {
    && |ts| > 0 && ts[0] == Tally(0, 0)
    && forall i | 0 <= i < |ts| - 1 :: TallyStep(max, ts[i], ts[i + 1])
  }

  lemma {:induction false} AttemptsGrow(max: int, ts: seq<Tally>, j: nat, k: nat)
    requires TallyRun(max, ts) && j <= k < |ts|
    ensures ts[j].attempts <= ts[k].attempts
    decreases k - j
  {
    if j < k {
      AttemptsGrow(max, ts, j, k - 1);
      assert TallyStep(max, ts[k - 1], ts[k]);
    }
  }

  /** Overruns happened at some step. */
  lemma {:induction false} OverrunHappened(max: int, ts: seq<Tally>, k: nat) returns (j: nat)
    requires TallyRun(max, ts) && k < |ts| && ts[k].overruns > 0
    ensures j < k && ts[j + 1].overruns == ts[j].overruns + 1
  {
    if ts[k - 1].overruns > 0 {
      j := OverrunHappened(max, ts, k - 1);
    } else {
      assert TallyStep(max, ts[k - 1], ts[k]);
      j := k - 1;
    }
  }

  /** The attempts beyond the limit came from a release at the limit and a claim after it. */
  lemma {:induction false} ExceededByOverrun(max: int, ts: seq<Tally>, k: nat) returns (j: nat, i: nat)
    requires max > 0 && TallyRun(max, ts) && k < |ts| && ts[k].attempts > max
    ensures j < i < k && ts[j + 1].overruns == ts[j].overruns + 1 && ts[i + 1].attempts == ts[i].attempts + 1
  {
    assert TallyStep(max, ts[k - 1], ts[k]);
    if ts[k - 1].attempts > max {
      j, i := ExceededByOverrun(max, ts, k - 1);
    } else {
      j := OverrunHappened(max, ts, k - 1);
      i := k - 1;
    }
  }

  lemma TalliesRun(cfg: Config, run: seq<Flow>) returns (ts: seq<Tally>)
    requires ValidConfig(cfg) && IsRun(cfg, run)
    ensures TallyRun(cfg.maxAttempts, ts) && |ts| == |run| && forall k | 0 <= k < |run| :: ts[k] == TallyOf(run[k])
  {
    ts := seq(|run|, k requires 0 <= k < |run| => TallyOf(run[k]));
    InvInductive(cfg);
    assert Start()(run[0]);
    forall i | 0 <= i < |ts| - 1 ensures TallyStep(cfg.maxAttempts, ts[i], ts[i + 1]) {
      Runs.Always(Start(), Steps(cfg), Invariant(cfg), run, i);
      assert Steps(cfg)(run[i], run[i + 1]);
      CountStep(cfg, run[i], run[i + 1]);
    }
  }

  lemma ExceededIn(cfg: Config, run: seq<Flow>, k: nat) returns (j: nat, i: nat)
    requires ValidConfig(cfg) && IsRun(cfg, run) && k < |run| && run[k].row.attempts > cfg.maxAttempts
    ensures j < i < k && OverrunAt(run, j) && ClaimAt(run, i)
  {
    var ts := TalliesRun(cfg, run);
    j, i := ExceededByOverrun(cfg.maxAttempts, ts, k);
  }

  lemma ExceededAfter(cfg: Config, run: seq<Flow>, j: nat, i: nat, k: nat)
    requires ValidConfig(cfg) && IsRun(cfg, run) && j < i < k < |run|
    requires OverrunAt(run, j) && ClaimAt(run, i)
    ensures run[k].row.attempts > cfg.maxAttempts
  {
    var ts := TalliesRun(cfg, run);
    assert TallyStep(cfg.maxAttempts, ts[j], ts[j + 1]);
    AttemptsGrow(cfg.maxAttempts, ts, j, i);
    AttemptsGrow(cfg.maxAttempts, ts, i + 1, k);
  }

  /** A release at the limit, and a claim after it, before step k. */
  ghost predicate ClaimedAfterOverrun(run: seq<Flow>, k: nat)
    requires k < |run|
  {
    exists j: nat, i: nat | j < i < k :: OverrunAt(run, j) && ClaimAt(run, i)
  }

  /** In every run admin_bot_alert_max_attempts is exceeded exactly when a stale claim of an
      alert that had used its last permitted attempt was released and the alert was then
      claimed again: the release has no branch for the limit. */
  lemma LimitExceededExactly(cfg: Config, run: seq<Flow>, k: nat)
    requires ValidConfig(cfg) && IsRun(cfg, run) && k < |run|
    ensures run[k].row.attempts > cfg.maxAttempts <==> ClaimedAfterOverrun(run, k)
  {
    if run[k].row.attempts > cfg.maxAttempts {
      var j, i := ExceededIn(cfg, run, k);
    } else if ClaimedAfterOverrun(run, k) {
      var j: nat, i: nat :| j < i < k && OverrunAt(run, j) && ClaimAt(run, i);
      ExceededAfter(cfg, run, j, i, k);
    }
  }

  /** With r such releases an alert can be claimed max + r times, and no more often. */
  lemma AttemptLimitExactlyWithoutOverruns(cfg: Config, r: nat)
    requires ValidConfig(cfg)
    ensures (forall f | Reachable(cfg, f) && f.overruns == r :: f.row.attempts <= cfg.maxAttempts) <==> r == 0
    ensures forall f | Reachable(cfg, f) && f.overruns == r :: f.row.attempts <= cfg.maxAttempts + r
    ensures exists f :: Reachable(cfg, f) && f.overruns == r && f.row.attempts == cfg.maxAttempts + r
  {
    forall f | Reachable(cfg, f) && f.overruns == r ensures f.row.attempts <= cfg.maxAttempts + r {
      ClaimsBounded(cfg, f);
    }
    var f := Worst(cfg, r);
    assert Reachable(cfg, f) && f.overruns == r && f.row.attempts == cfg.maxAttempts + r;
  }

  /** An unclaimed alert that is due at `now`. */
  ghost predicate ReadyAt(f: Flow, attempts: nat, overruns: nat, now: Time) {
    f.row.attempts == attempts && f.overruns == overruns && DueAlert(f.row, now)
  }

  /** An alert whose every delivery fails, then whose claimants die r times. */
  lemma Worst(cfg: Config, r: nat) returns (f: Flow)
    requires ValidConfig(cfg)
    ensures Reachable(cfg, f) && f.overruns == r && f.row.attempts == cfg.maxAttempts + r
  {
    var now: Time;
    f, now := Released(cfg, r);
    Runs.StepReachable(Start(), Steps(cfg), f, Apply(cfg, f, Claim("w", now)));
    f := Apply(cfg, f, Claim("w", now));
  }

  lemma {:induction false} Retried(cfg: Config, n: nat) returns (f: Flow, now: Time)
    requires ValidConfig(cfg) && n < cfg.maxAttempts
    ensures Reachable(cfg, f) && ReadyAt(f, n, 0, now)
  {
    if n == 0 {
      f := Flow(Alert(Info, None, Waiting, 0, None, None, None, None, None, 0.0), map[], [], 0);
      now := 0.0;
      Runs.InitReachable(Start(), Steps(cfg), f);
    } else {
      f, now := Retried(cfg, n - 1);
      Runs.StepReachable(Start(), Steps(cfg), f, Apply(cfg, f, Claim("w", now)));
      f := Apply(cfg, f, Claim("w", now));
      var a := Record(n, Outcome(0, true, None, None), now, 1.0);
      assert OwnsAlert(f.row, f.tokens[n], n);
      Runs.StepReachable(Start(), Steps(cfg), f, Apply(cfg, f, a));
      f := Apply(cfg, f, a);
      now := now + AlertRetryDelay(n, None, 1.0);
    }
  }

  lemma {:induction false} Released(cfg: Config, r: nat) returns (f: Flow, now: Time)
    requires ValidConfig(cfg)
    ensures Reachable(cfg, f) && ReadyAt(f, cfg.maxAttempts - 1 + r, r, now)
  {
    if r == 0 {
      f, now := Retried(cfg, cfg.maxAttempts - 1);
    } else {
      f, now := Released(cfg, r - 1);
      Runs.StepReachable(Start(), Steps(cfg), f, Apply(cfg, f, Claim("w", now)));
      f := Apply(cfg, f, Claim("w", now));
      now := now + cfg.claimTimeout;
      Runs.StepReachable(Start(), Steps(cfg), f, Apply(cfg, f, Release(now)));
      f := Apply(cfg, f, Release(now));
    }
  }

  // ----- The outbox table --------------------------------------------------------------------------------

  function DueIn(alerts: seq<Alert>, now: Time, locked: set<nat>): nat -> bool {
    (i: nat) => i < |alerts| && i !in locked && DueAlert(alerts[i], now)
  }

  function StaleIn(cfg: Config, alerts: seq<Alert>, now: Time, locked: set<nat>): nat -> bool {
    (i: nat) => i < |alerts| && i !in locked && StaleAlert(cfg, alerts[i], now)
  }

  /** Waiting to be sent: its retry time is reached and nobody sends it. */
  ghost predicate Sendable(a: Alert, now: Time) {
    && (a.status == Waiting || a.status == RetryScheduled) && a.claimedAt.None?
    && (a.nextRetryAt.Some? ==> now >= a.nextRetryAt.value)
  }

  /** In its worker's hands for at least this long. */
  ghost predicate SentFor(a: Alert, time: Time, now: Time) {
    a.status == Sending && a.claimedAt.Some? && now - a.claimedAt.value >= time
  }

  /** The row a recorded outcome leaves behind. */
  ghost function Written(cfg: Config, a: Alert, o: Outcome, attempt: nat, now: Time, jitter: real): (b: Alert) {
    var base := Backoff(attempt) * jitter;
    var delay := if o.retryAfter.Some? && o.retryAfter.value as real > base then o.retryAfter.value as real else base;
    if o.delivered > 0 then
      a.(status := Delivered, deliveredAt := Some(now), nextRetryAt := None, claimedAt := None, claimedBy := None, errorCode := o.errorCode)
    else if o.retryable && attempt < cfg.maxAttempts then
      a.(status := RetryScheduled, nextRetryAt := Some(now + delay), claimedAt := None, claimedBy := None, errorCode := o.errorCode)
    else
      a.(status := Failed, nextRetryAt := None, claimedAt := None, claimedBy := None, errorCode := o.errorCode)
  }

  lemma RecordedIsWritten(cfg: Config, a: Alert, o: Outcome, attempt: nat, now: Time, jitter: real)
    ensures RecordedAlert(cfg, a, o, attempt, now, jitter) == Written(cfg, a, o, attempt, now, jitter)
  {
    DelayIsBackoff(attempt, o.retryAfter, jitter);
  }

  /** The first due alerts in the order in which they were created. */
  lemma FirstDue(alerts: seq<Alert>, now: Time, locked: set<nat>, limit: nat)
    ensures var ids := Take(OrderBy(Where(|alerts|, DueIn(alerts, now, locked)), ById()), limit);
      && Ascending(ids) && |ids| <= limit
      && (forall i | i in ids :: i < |alerts| && i !in locked && Sendable(alerts[i], now))
      && (|ids| < limit ==> forall i | 0 <= i < |alerts| && i !in locked && Sendable(alerts[i], now) :: i in ids)
      && (forall i: nat, j: nat | i in ids && j < |alerts| && j !in locked && j !in ids && Sendable(alerts[j], now) :: i < j)
  {
    var due := DueIn(alerts, now, locked);
    SelectSpec(|alerts|, due, ById(), limit);
    var ids := Take(OrderBy(Where(|alerts|, due), ById()), limit);
    assert forall i: nat | i < |alerts| :: due(i) <==> i !in locked && Sendable(alerts[i], now);
    forall i: nat, j: nat | i in ids && j < |alerts| && due(j) && j !in ids ensures i < j {
      assert ById()(i, j);
    }
    forall a, b | 0 <= a < b < |ids| ensures ids[a] < ids[b] {
      assert ById()(ids[a], ids[b]);
    }
  }

  /** Every alert held too long is released, and counted. */
  lemma AllStale(cfg: Config, alerts: seq<Alert>, now: Time, locked: set<nat>)
    ensures ghost var ids := Where(|alerts|, StaleIn(cfg, alerts, now, locked));
      && (forall i: nat :: i in ids <==> i < |alerts| && i !in locked && SentFor(alerts[i], cfg.claimTimeout, now))
      && |ids| == |set i: nat | i < |alerts| && i !in locked && SentFor(alerts[i], cfg.claimTimeout, now)|
  {
    WhereCount(|alerts|, StaleIn(cfg, alerts, now, locked));
    assert Matches(|alerts|, StaleIn(cfg, alerts, now, locked))
        == set i: nat | i < |alerts| && i !in locked && SentFor(alerts[i], cfg.claimTimeout, now);
  }

  function ById(): (nat, nat) -> bool {
    Order((i: nat) => 0, (i: nat) => None, false)
  }

  function Claiming(worker: string, now: Time): (nat, Alert) -> Alert {
    (i: nat, a: Alert) => ClaimedAlert(a, worker, now)
  }

  function Releasing(now: Time): (nat, Alert) -> Alert {
    (i: nat, a: Alert) => ReleasedAlert(a, now)
  }

  datatype Claimed = Claimed(alert: nat, attempts: nat, worker: string)

  ghost function TrackedBy(cfg: Config): (ok: (Alert, Flow) -> bool) {
    (a: Alert, f: Flow) => f.row == a && Reachable(cfg, f)
  }

  /** The claims handed out for a batch: each alert's next attempt number. */
  ghost function ClaimsOf(alerts: seq<Alert>, ids: seq<nat>, worker: string): (cs: seq<Claimed>)
    ensures |cs| == |ids|
  {
    if ids == [] then []
    else
      var id := ids[|ids| - 1];
      ClaimsOf(alerts, ids[..|ids| - 1], worker)
      + [Claimed(id, if id < |alerts| then alerts[id].attempts + 1 else 0, worker)]
  }

  lemma ClaimsNext(alerts: seq<Alert>, ids: seq<nat>, k: nat, worker: string)
    requires k < |ids| && ids[k] < |alerts|
    ensures ClaimsOf(alerts, ids[..k + 1], worker)
            == ClaimsOf(alerts, ids[..k], worker) + [Claimed(ids[k], alerts[ids[k]].attempts + 1, worker)]
  {
    assert ids[..k + 1][..k] == ids[..k];
  }

  /** The history of an alert after a claim. */
  ghost function Claims(worker: string, now: Time): (nat, Flow) -> Flow {
    (i: nat, f: Flow) =>
      f.(row := ClaimedAlert(f.row, worker, now), tokens := f.tokens[f.row.attempts + 1 := worker])
  }

  lemma {:induction false} ClaimsAt(alerts: seq<Alert>, ids: seq<nat>, worker: string, k: nat)
    requires k < |ids| && ids[k] < |alerts|
    ensures ClaimsOf(alerts, ids, worker)[k] == Claimed(ids[k], alerts[ids[k]].attempts + 1, worker)
  {
    if k < |ids| - 1 {
      ClaimsAt(alerts, ids[..|ids| - 1], worker, k);
    }
  }

  /** The claim is one some worker still holds. */
  ghost predicate LiveIn(flows: seq<Flow>, c: Claimed) {
    c.alert < |flows| && c.attempts in flows[c.alert].tokens && flows[c.alert].tokens[c.attempts] == c.worker
  }

  lemma ClaimLive(cfg: Config, alerts: seq<Alert>, flows: seq<Flow>, ids: seq<nat>, worker: string, now: Time, k: nat)
    requires |alerts| == |flows| && Runs.Tracked(TrackedBy(cfg), alerts, flows)
    requires k < |ids| && ids[k] < |alerts|
    ensures LiveIn(UpdateAll(flows, ids, Claims(worker, now)), ClaimsOf(alerts, ids, worker)[k])
  {
    var id, claims := ids[k], Claims(worker, now);
    Runs.TrackedAt(TrackedBy(cfg), alerts, flows, id);
    ClaimsAt(alerts, ids, worker, k);
    assert id in ids;
    assert UpdateAll(flows, ids, claims)[id] == claims(id, flows[id]);
  }

  /** Each claim handed out is in the history of its alert. */
  lemma ClaimsLive(cfg: Config, alerts: seq<Alert>, flows: seq<Flow>, ids: seq<nat>, worker: string, now: Time)
    requires |alerts| == |flows| && Runs.Tracked(TrackedBy(cfg), alerts, flows)
    requires forall i | i in ids :: i < |alerts|
    ensures forall k | 0 <= k < |ids| :: LiveIn(UpdateAll(flows, ids, Claims(worker, now)), ClaimsOf(alerts, ids, worker)[k])
  {
    forall k | 0 <= k < |ids| ensures LiveIn(UpdateAll(flows, ids, Claims(worker, now)), ClaimsOf(alerts, ids, worker)[k]) {
      assert ids[k] in ids;
      ClaimLive(cfg, alerts, flows, ids, worker, now, k);
    }
  }

  /** An alert that this worker sends now. */
  ghost predicate TakenBy(a: Alert, b: Alert, worker: string, now: Time) {
    b == a.(status := Sending, claimedAt := Some(now), claimedBy := Some(worker), attempts := a.attempts + 1)
  }

  lemma ClaimedByColumns(alerts: seq<Alert>, ids: seq<nat>, worker: string, now: Time)
    ensures var after := UpdateAll(alerts, ids, Claiming(worker, now));
            forall i | 0 <= i < |alerts| :: if i in ids then TakenBy(alerts[i], after[i], worker, now) else after[i] == alerts[i]
  {
  }

  /** The claims handed out carry the attempt numbers their alerts have afterwards. */
  lemma Numbered(alerts: seq<Alert>, ids: seq<nat>, worker: string, now: Time)
    requires forall i | i in ids :: i < |alerts|
    ensures var after := UpdateAll(alerts, ids, Claiming(worker, now));
            forall k | 0 <= k < |ids| ::
              ids[k] < |alerts| && ClaimsOf(alerts, ids, worker)[k] == Claimed(ids[k], after[ids[k]].attempts, worker)
  {
    forall k | 0 <= k < |ids|
      ensures ids[k] < |alerts|
      ensures ClaimsOf(alerts, ids, worker)[k] == Claimed(ids[k], UpdateAll(alerts, ids, Claiming(worker, now))[ids[k]].attempts, worker)
    {
      assert ids[k] in ids;
      ClaimsAt(alerts, ids, worker, k);
    }
  }

  class AlertOutbox {
    const cfg: Config
    var alerts: seq<Alert>
    ghost var flows: seq<Flow>

    ghost predicate Valid()
      reads this
    {
      ValidConfig(cfg) && |flows| == |alerts| && Runs.Tracked(TrackedBy(cfg), alerts, flows)
    }

    ghost predicate Live(c: Claimed)
      reads this
    {
      LiveIn(flows, c)
    }

    constructor (cfg: Config)
      requires ValidConfig(cfg)
      ensures Valid() && this.cfg == cfg && alerts == []
    {
      this.cfg := cfg;
      alerts := [];
      flows := [];
    }

    /** Commits a new version of alert i, justified by one action of its machine. */
    method Write(i: nat, a: Alert, ghost act: Action)
      requires Valid() && i < |alerts|
      requires flows[i].row == alerts[i] ==> Enabled(cfg, flows[i], act) && a == Apply(cfg, flows[i], act).row
      modifies this`alerts, this`flows
      ensures Valid()
      ensures alerts == old(alerts)[i := a]
      ensures Enabled(cfg, old(flows)[i], act) && flows == old(flows)[i := Apply(cfg, old(flows)[i], act)]
    {
      Runs.TrackedAt(TrackedBy(cfg), alerts, flows, i);
      Runs.StepReachable(Start(), Steps(cfg), flows[i], Apply(cfg, flows[i], act));
      Runs.TrackedUpdate(TrackedBy(cfg), alerts, flows, i, a, Apply(cfg, flows[i], act));
      flows := flows[i := Apply(cfg, flows[i], act)];
      alerts := alerts[i := a];
    }

    /** create_alert. */
    method CreateAlert(severity: Severity, key: Option<Key>, windowMinutes: int, now: Time) returns (id: nat)
      requires Valid()
      modifies this
      ensures Valid()
      ensures id == |old(alerts)|
      ensures alerts == old(alerts) + [NewAlert(old(alerts), severity, key, windowMinutes, now)]
      ensures ghost var withheld := key.Some? && Recent(old(alerts), key, windowMinutes, now);
              alerts == old(alerts) + [Alert(severity, key, if withheld then Suppressed else Waiting, 0,
                                             if withheld then None else Some(now), None, None, None, None, now)]
    {
      DuplicateIsRecent(alerts, key, windowMinutes, now);
      var status := Waiting;
      if key.Some? {
        var cutoff := now - 60.0 * windowMinutes as real;
        if exists i | 0 <= i < |alerts| :: Duplicates(alerts[i], key.value, cutoff) {
          status := Suppressed;
        }
      }
      var retryAt := if status == Waiting then Some(now) else None;
      id := Append(Alert(severity, key, status, 0, retryAt, None, None, None, None, now));
    }

    method Append(alert: Alert) returns (id: nat)
      requires Valid() && InitRow(alert)
      modifies this
      ensures Valid()
      ensures id == |old(alerts)| && alerts == old(alerts) + [alert]
    {
      id := |alerts|;
      ghost var f := Flow(alert, map[], [], 0);
      Runs.InitReachable(Start(), Steps(cfg), f);
      Runs.TrackedAppend(TrackedBy(cfg), alerts, flows, alert, f);
      alerts := alerts + [alert];
      flows := flows + [f];
    }

    /** claim_due_alerts: the first `limit` due alerts by id, each claimed for one attempt. */
    method ClaimDueAlerts(worker: string, now: Time, limit: nat, locked: set<nat>) returns (claimed: seq<Claimed>, ghost batch: seq<nat>)
      requires Valid()
      modifies this
      ensures Valid() && |alerts| == |old(alerts)|
      ensures Ascending(batch) && |batch| <= limit
      ensures forall i | i in batch :: i < |old(alerts)| && i !in locked && Sendable(old(alerts)[i], now)
      ensures |batch| < limit ==> forall i | 0 <= i < |alerts| && i !in locked && Sendable(old(alerts)[i], now) :: i in batch
      ensures forall i: nat, j: nat | i in batch && j < |alerts| && j !in locked && j !in batch && Sendable(old(alerts)[j], now) :: i < j
      ensures forall i | 0 <= i < |alerts| ::
                if i in batch then TakenBy(old(alerts)[i], alerts[i], worker, now) else alerts[i] == old(alerts)[i]
      ensures |claimed| == |batch|
      ensures forall k | 0 <= k < |claimed| ::
                batch[k] < |alerts| && claimed[k] == Claimed(batch[k], alerts[batch[k]].attempts, worker) && Live(claimed[k])
    {
      FirstDue(alerts, now, locked, limit);
      var ids := Take(OrderBy(Where(|alerts|, DueIn(alerts, now, locked)), ById()), limit);
      batch := ids;
      ghost var before := alerts;
      ClaimsLive(cfg, alerts, flows, ids, worker, now);
      claimed := ClaimBatch(ids, worker, now);
      ClaimedByColumns(before, ids, worker, now);
      Numbered(before, ids, worker, now);
    }

    method ClaimBatch(ids: seq<nat>, worker: string, now: Time) returns (claimed: seq<Claimed>)
      requires Valid() && Distinct(ids) && forall i | i in ids :: i < |alerts| && DueAlert(alerts[i], now)
      modifies this
      ensures Valid()
      ensures alerts == UpdateAll(old(alerts), ids, Claiming(worker, now))
      ensures flows == UpdateAll(old(flows), ids, Claims(worker, now))
      ensures claimed == ClaimsOf(old(alerts), ids, worker)
    {
      ghost var start, histories := alerts, flows;
      var k := 0;
      claimed := [];
      while k < |ids|
        invariant 0 <= k <= |ids|
        invariant Valid()
        invariant alerts == UpdateAll(start, ids[..k], Claiming(worker, now))
        invariant flows == UpdateAll(histories, ids[..k], Claims(worker, now))
        invariant claimed == ClaimsOf(start, ids[..k], worker)
      {
        assert ids[k] in ids;
        UpdateNext(start, ids, k, Claiming(worker, now));
        UpdateNext(histories, ids, k, Claims(worker, now));
        assert alerts[ids[k]] == start[ids[k]];
        var c := ClaimOne(ids[k], worker, now);
        assert c == Claimed(ids[k], start[ids[k]].attempts + 1, worker);
        assert ClaimsOf(start, ids[..k + 1], worker) == claimed + [c] by {
          ClaimsNext(start, ids, k, worker);
        }
        claimed := claimed + [c];
        k := k + 1;
      }
      assert ids[..k] == ids;
    }

    method ClaimOne(id: nat, worker: string, now: Time) returns (c: Claimed)
      requires Valid() && id < |alerts| && DueAlert(alerts[id], now)
      modifies this
      ensures Valid()
      ensures alerts == old(alerts)[id := ClaimedAlert(old(alerts)[id], worker, now)]
      ensures id < |old(flows)| && flows == old(flows)[id := Claims(worker, now)(id, old(flows)[id])]
      ensures c == Claimed(id, old(alerts)[id].attempts + 1, worker)
    {
      Runs.TrackedAt(TrackedBy(cfg), alerts, flows, id);
      var alert := alerts[id];
      alert := alert.(status := Sending);
      alert := alert.(claimedAt := Some(now));
      alert := alert.(claimedBy := Some(worker));
      alert := alert.(attempts := alert.attempts + 1);
      Write(id, alert, Claim(worker, now));
      c := Claimed(id, alert.attempts, worker);
    }

    /** release_stale_alert_claims: every stale claim goes back to the queue, with no limit. */
    method ReleaseStaleAlertClaims(now: Time, locked: set<nat>) returns (count: nat)
      requires Valid()
      modifies this
      ensures Valid()
      ensures |alerts| == |old(alerts)|
      ensures forall i | 0 <= i < |alerts| ::
                alerts[i] == if i !in locked && SentFor(old(alerts)[i], cfg.claimTimeout, now)
                             then old(alerts)[i].(status := Waiting, claimedAt := None, claimedBy := None, nextRetryAt := Some(now))
                             else old(alerts)[i]
      ensures count == |set i: nat | i < |alerts| && i !in locked && SentFor(old(alerts)[i], cfg.claimTimeout, now)|
    {
      AllStale(cfg, alerts, now, locked);
      var ids := Where(|alerts|, StaleIn(cfg, alerts, now, locked));
      assert forall i | i in ids :: StaleIn(cfg, alerts, now, locked)(i);
      ghost var start := alerts;
      count := 0;
      while count < |ids|
        invariant 0 <= count <= |ids|
        invariant Valid()
        invariant alerts == UpdateAll(start, ids[..count], Releasing(now))
      {
        var id := ids[count];
        assert id in ids && StaleIn(cfg, start, now, locked)(id);
        UpdateNext(start, ids, count, Releasing(now));
        var alert := alerts[id];
        alert := alert.(status := Waiting);
        alert := alert.(claimedAt := None);
        alert := alert.(claimedBy := None);
        alert := alert.(nextRetryAt := Some(now));
        Write(id, alert, Release(now));
        count := count + 1;
      }
      assert ids[..count] == ids;
    }

    /** record_delivery_result: None when the result was discarded. */
    method RecordDeliveryResult(c: Claimed, o: Outcome, now: Time, jitter: real) returns (status: Option<AlertStatus>)
      requires Valid() && Live(c)
      modifies this
      ensures Valid()
      ensures var a := old(alerts)[c.alert];
              status.None? <==> a.status != Sending || a.claimedBy != Some(c.worker) || a.attempts != c.attempts || a.claimedAt.None?
      ensures status.None? ==> alerts == old(alerts)
      ensures status.Some? ==>
                && alerts == old(alerts)[c.alert := Written(cfg, old(alerts)[c.alert], o, c.attempts, now, jitter)]
                && status.value == alerts[c.alert].status
    {
      Runs.TrackedAt(TrackedBy(cfg), alerts, flows, c.alert);
      RecordedIsWritten(cfg, alerts[c.alert], o, c.attempts, now, jitter);
      var alert := alerts[c.alert];
      if alert.status != Sending || alert.claimedBy != Some(c.worker) || alert.attempts != c.attempts || alert.claimedAt.None? {
        Write(c.alert, alert, Record(c.attempts, o, now, jitter));
        return None;
      }
      alert := alert.(claimedAt := None);
      alert := alert.(claimedBy := None);
      alert := alert.(errorCode := o.errorCode);
      if o.delivered > 0 {
        alert := alert.(status := Delivered);
        alert := alert.(deliveredAt := Some(now));
        alert := alert.(nextRetryAt := None);
      } else if o.retryable && c.attempts < cfg.maxAttempts {
        var delay := AlertRetryDelay(c.attempts, o.retryAfter, jitter);
        alert := alert.(status := RetryScheduled);
        alert := alert.(nextRetryAt := Some(now + delay));
      } else {
        alert := alert.(status := Failed);
        alert := alert.(nextRetryAt := None);
      }
      Write(c.alert, alert, Record(c.attempts, o, now, jitter));
      return Some(alert.status);
    }
  }
}
