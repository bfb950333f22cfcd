/** Monitor incidents (app/services/monitor_incidents.py): one open row per check, with
    several monitor processes racing on it while the alert outbox moves on its own. */
module Incidents {
  import opened Common
  import opened Alerts
  import Runs

  /** The two unhealthy readings of a check. */
  datatype Level = WarningLevel | CriticalLevel

  function SeverityOf(l: Level): (s: Severity) {
    if l.CriticalLevel? then Critical else Warning
  }

  predicate Worse(l: Level, than: Level) {
    l.CriticalLevel? && than.WarningLevel?
  }

  /** The severity of an alert covers an incident of level l. */
  predicate AtLeast(s: Severity, l: Level) {
    match l
    case CriticalLevel => s == Critical
    case WarningLevel => s == Warning || s == Critical
  }

  datatype Incident = Incident(
    check: string,
    level: Level,
    open: bool,
    openedAt: Time,
    lastSeenAt: Time,
    resolvedAt: Option<Time>,
    lastAlertedAt: Option<Time>,
    lastAlertId: Option<nat>)

  datatype Tables = Tables(incidents: seq<Incident>, alerts: seq<Alert>)

  /** One unhealthy polling cycle: the reading, whether its alert category is enabled, the
      deduplication window in minutes and the instant it was taken. */
  datatype Cycle = Cycle(check: string, level: Level, enabled: bool, window: int, now: Time)

  predicate IsOpen(i: Incident, check: string) {
    i.open && i.check == check
  }

  /** _open_incident. */
  function FindOpen(incidents: seq<Incident>, check: string): (r: Option<nat>)
    ensures r.Some? ==> r.value < |incidents| && IsOpen(incidents[r.value], check)
    ensures r.None? ==> forall i | 0 <= i < |incidents| :: !IsOpen(incidents[i], check)
  {
    if incidents == [] then None
    else
      var n := |incidents| - 1;
      if IsOpen(incidents[n], check) then Some(n) else FindOpen(incidents[..n], check)
  }

  // ----- The locked row updates ----------------------------------------------------------------

  /** create_alert for incident `id`, remembered on its row. */
  function Raise(t: Tables, id: nat, severity: Severity, key: Key, window: int, now: Time): (u: Tables)
    requires id < |t.incidents|
  {
    Tables(
      t.incidents[id := t.incidents[id].(lastAlertedAt := Some(now), lastAlertId := Some(|t.alerts|))],
      t.alerts + [NewAlert(t.alerts, severity, Some(key), window, now)])
  }

  /** The row was closed, and its recovery announced when alerting is on. */
  function Closed(t: Tables, id: nat, enabled: bool, window: int, now: Time): (u: Tables)
    requires id < |t.incidents|
  {
    var inc := t.incidents[id];
    var s := t.(incidents := t.incidents[id := inc.(open := false, resolvedAt := Some(now), lastSeenAt := now)]);
    if enabled then Raise(s, id, Info, ResolvedKey(inc.check, id), window, now) else s
  }

  /** A new open row, announced when alerting is on. */
  function Opened(t: Tables, c: Cycle): (u: Tables) {
    var s := t.(incidents := t.incidents + [Incident(c.check, c.level, true, c.now, c.now, None, None, None)]);
    if c.enabled then Raise(s, |t.incidents|, SeverityOf(c.level), OpenedKey(c.check, |t.incidents|), c.window, c.now) else s
  }

  predicate NeedsCatchup(alerts: seq<Alert>, i: Incident) {
    || i.lastAlertedAt.None?
    || (i.lastAlertId.Some? && i.lastAlertId.value < |alerts| && alerts[i.lastAlertId.value].status == Failed)
  }

  /** The key under which a cycle alerts about an incident that is already open. */
  function StampedKey(i: Incident, id: nat, c: Cycle): (k: Key) {
    if Worse(c.level, i.level) then EscalatedKey(c.check, id, SeverityOf(c.level), c.now)
    else CatchupKey(c.check, id, SeverityOf(c.level), c.now)
  }

  predicate Raises(t: Tables, id: nat, c: Cycle)
    requires id < |t.incidents|
  {
    c.enabled && (Worse(c.level, t.incidents[id].level) || NeedsCatchup(t.alerts, t.incidents[id]))
  }

  /** An unhealthy reading of an incident that is already open. */
  function Refreshed(t: Tables, id: nat, c: Cycle): (u: Tables)
    requires id < |t.incidents|
  {
    var inc := t.incidents[id];
    var seen := inc.(lastSeenAt := c.now, level := c.level);
    var s := t.(incidents := t.incidents[id := seen]);
    if Raises(t, id, c) then Raise(s, id, SeverityOf(c.level), StampedKey(inc, id, c), c.window, c.now)
    else if Worse(c.level, inc.level) then t.(incidents := t.incidents[id := seen.(lastAlertedAt := None)])
    else s
  }

  // ----- The same updates, column by column ---------------------------------------------------------

  /** An alert that may be sent at once. */
  ghost predicate Fresh(a: Alert, severity: Severity, key: Key, now: Time) {
    a == Alert(severity, Some(key), Waiting, 0, Some(now), None, None, None, None, now)
  }

  /** An alert whose key was already used within the window. */
  ghost predicate Withheld(a: Alert, severity: Severity, key: Key, now: Time) {
    a == Alert(severity, Some(key), Suppressed, 0, None, None, None, None, None, now)
  }

  /** What a cycle leaves of an incident that was open: the reading, and one alert exactly when
      alerting is on and the reading got worse, nothing was alerted yet or the last alert failed
      for good; a worsening nobody could be told about stays owed. */
  ghost predicate Updated(t: Tables, u: Tables, id: nat, c: Cycle)
    requires id < |t.incidents|
  {
    var i := t.incidents[id];
    var worse := c.level == CriticalLevel && i.level == WarningLevel;
    var lost := i.lastAlertId.Some? && i.lastAlertId.value < |t.alerts| && t.alerts[i.lastAlertId.value].status == Failed;
    var severity := if c.level == CriticalLevel then Critical else Warning;
    var key := if worse then EscalatedKey(c.check, id, severity, c.now) else CatchupKey(c.check, id, severity, c.now);
    if c.enabled && (worse || i.lastAlertedAt.None? || lost) then
      && u.incidents == t.incidents[id := i.(lastSeenAt := c.now, level := c.level, lastAlertedAt := Some(c.now), lastAlertId := Some(|t.alerts|))]
      && |u.alerts| == |t.alerts| + 1 && u.alerts[..|t.alerts|] == t.alerts
      && if Recent(t.alerts, Some(key), c.window, c.now) then Withheld(u.alerts[|t.alerts|], severity, key, c.now)
         else Fresh(u.alerts[|t.alerts|], severity, key, c.now)
    else
      && u.incidents == t.incidents[id := i.(lastSeenAt := c.now, level := c.level, lastAlertedAt := if worse then None else i.lastAlertedAt)]
      && u.alerts == t.alerts
  }

  lemma RefreshedByColumns(t: Tables, id: nat, c: Cycle)
    requires id < |t.incidents|
    ensures Updated(t, Refreshed(t, id, c), id, c)
  {
    DuplicateIsRecent(t.alerts, Some(StampedKey(t.incidents[id], id, c)), c.window, c.now);
  }

  /** The same for the row a cycle inserts. */
  ghost predicate Inserted(t: Tables, u: Tables, c: Cycle) {
    var id := |t.incidents|;
    var severity := if c.level == CriticalLevel then Critical else Warning;
    var row := Incident(c.check, c.level, true, c.now, c.now, None, None, None);
    if c.enabled then
      && u.incidents == t.incidents + [row.(lastAlertedAt := Some(c.now), lastAlertId := Some(|t.alerts|))]
      && |u.alerts| == |t.alerts| + 1 && u.alerts[..|t.alerts|] == t.alerts
      && Fresh(u.alerts[|t.alerts|], severity, OpenedKey(c.check, id), c.now)
    else u == Tables(t.incidents + [row], t.alerts)
  }

  /** And for the one a healthy reading closes. */
  ghost predicate Resolved(t: Tables, u: Tables, id: nat, enabled: bool, now: Time)
    requires id < |t.incidents|
  {
    var row := t.incidents[id].(open := false, resolvedAt := Some(now), lastSeenAt := now);
    if enabled then
      && u.incidents == t.incidents[id := row.(lastAlertedAt := Some(now), lastAlertId := Some(|t.alerts|))]
      && |u.alerts| == |t.alerts| + 1 && u.alerts[..|t.alerts|] == t.alerts
      && Fresh(u.alerts[|t.alerts|], Info, ResolvedKey(t.incidents[id].check, id), now)
    else u == Tables(t.incidents[id := row], t.alerts)
  }

  // ----- The race ------------------------------------------------------------------------------

  /** Where an unhealthy cycle stands between two of its transactions. */
  datatype Pc = Inserting(cycle: Cycle) | Retrying(cycle: Cycle)

  /** What happened to one incident so far: how often it worsened, and the failed alerts that
      a catch-up alert replaced. */
  datatype Ledger = Ledger(worsened: nat, replaced: set<nat>)

  datatype Stamp = Stamp(check: string, at: Time)

  datatype World = World(tables: Tables, ledgers: seq<Ledger>, pending: map<nat, Pc>, issued: set<Stamp>)

  datatype Action =
    | Healthy(check: string, enabled: bool, window: int, now: Time)
    | Begin(process: nat, cycle: Cycle)
    | Insert(process: nat)
    | Retry(process: nat)
    | Crash(process: nat)
    | Outbox(alerts: seq<Alert>)   // deliveries, and alerts from other producers

  ghost predicate Foreign(a: Alert) {
    a.key.None? || a.key.value.EventKey?
  }

  ghost predicate Moves(before: seq<Alert>, after: seq<Alert>) {
    && |before| <= |after|
    && (forall i | 0 <= i < |before| :: Evolves(before[i], after[i]))
    && (forall i | |before| <= i < |after| :: Foreign(after[i]))
  }

  ghost predicate Possible(w: World, a: Action) {
    match a
    case Healthy(_, _, _, _) => true
    case Begin(p, _) => p !in w.pending
    case Insert(p) => p in w.pending && w.pending[p].Inserting?
    case Retry(p) => p in w.pending && w.pending[p].Retrying?
    case Crash(p) => p in w.pending
    case Outbox(alerts) => Moves(w.tables.alerts, alerts)
  }

  /** No two unhealthy cycles of one check carry the same instant. */
  ghost predicate Enabled(w: World, a: Action) {
    Possible(w, a) && (a.Begin? ==> Stamp(a.cycle.check, a.cycle.now) !in w.issued)
  }

  ghost function RefreshedLedger(t: Tables, id: nat, c: Cycle, l: Ledger): (m: Ledger)
    requires id < |t.incidents|
  {
    var inc := t.incidents[id];
    if Worse(c.level, inc.level) then l.(worsened := l.worsened + 1)
    else if c.enabled && inc.lastAlertedAt.Some? && inc.lastAlertId.Some? && NeedsCatchup(t.alerts, inc)
    then l.(replaced := l.replaced + {inc.lastAlertId.value})
    else l
  }

  ghost function Refreshing(w: World, id: nat, c: Cycle): (v: World)
    requires |w.ledgers| == |w.tables.incidents| && id < |w.ledgers|
  {
    w.(tables := Refreshed(w.tables, id, c),
       ledgers := w.ledgers[id := RefreshedLedger(w.tables, id, c, w.ledgers[id])])
  }

  ghost function Apply(w: World, a: Action): (v: World)
    requires |w.ledgers| == |w.tables.incidents| && Possible(w, a)
  {
    var t := w.tables;
    match a
    case Healthy(check, enabled, window, now) =>
      var found := FindOpen(t.incidents, check);
      if found.None? then w else w.(tables := Closed(t, found.value, enabled, window, now))
    case Begin(p, c) =>
      var v := w.(issued := w.issued + {Stamp(c.check, c.now)});
      var found := FindOpen(t.incidents, c.check);
      if found.None? then v.(pending := v.pending[p := Inserting(c)]) else Refreshing(v, found.value, c)
    case Insert(p) =>
      var c := w.pending[p].cycle;
      if FindOpen(t.incidents, c.check).Some? then w.(pending := w.pending[p := Retrying(c)])
      else w.(tables := Opened(t, c), ledgers := w.ledgers + [Ledger(0, {})], pending := w.pending - {p})
    case Retry(p) =>
      var c := w.pending[p].cycle;
      var v := w.(pending := w.pending - {p});
      var found := FindOpen(t.incidents, c.check);
      if found.None? then v else Refreshing(v, found.value, c)
    case Crash(p) => w.(pending := w.pending - {p})
    case Outbox(alerts) => w.(tables := t.(alerts := alerts))
  }

  ghost predicate Init(w: World) {
    w == World(Tables([], []), [], map[], {})
  }

  ghost predicate Next(w: World, v: World) {
    |w.ledgers| == |w.tables.incidents| && exists a :: Enabled(w, a) && v == Apply(w, a)
  }

  ghost function Start(): (p: World -> bool) {
    w => Init(w)
  }

  ghost function Steps(): (p: (World, World) -> bool) {
    (w: World, v: World) => Next(w, v)
  }

  ghost predicate Reachable(w: World) {
    Runs.Reachable(Start(), Steps(), w)
  }

  // ----- The invariant ---------------------------------------------------------------------------

  ghost predicate OneOpen(incidents: seq<Incident>) {
    forall i, j | 0 <= i < j < |incidents| && incidents[i].open && incidents[j].open ::
      incidents[i].check != incidents[j].check
  }

  /** An alert that announced incident i or its worsening. */
  predicate About(a: Alert, i: nat) {
    && a.key.Some?
    && match a.key.value
       case OpenedKey(_, n) => n == i
       case EscalatedKey(_, n, _, _) => n == i
       case CatchupKey(_, n, _, _) => n == i
       case _ => false
  }

  ghost function Raised(alerts: seq<Alert>, i: nat): (ids: set<nat>) {
    set a: nat | a < |alerts| && About(alerts[a], i)
  }

  /** An alert of sufficient severity, not suppressed when it was created. */
  ghost predicate Sound(alerts: seq<Alert>, i: Incident) {
    && i.lastAlertId.Some? && i.lastAlertId.value < |alerts|
    && alerts[i.lastAlertId.value].status != Suppressed
    && AtLeast(alerts[i.lastAlertId.value].severity, i.level)
  }

  /** The incident has an alert of at least its severity that is neither failed nor suppressed. */
  ghost predicate Covered(alerts: seq<Alert>, i: Incident) {
    Sound(alerts, i) && alerts[i.lastAlertId.value].status != Failed
  }

  ghost predicate RowOk(alerts: seq<Alert>, n: nat, i: Incident, l: Ledger) {
    && (i.open && i.lastAlertedAt.Some? ==> Sound(alerts, i) && About(alerts[i.lastAlertId.value], n) && i.lastAlertId.value !in l.replaced)
    && (forall a | a in l.replaced :: a < |alerts| && About(alerts[a], n) && alerts[a].status == Failed)
    && |Raised(alerts, n)| + (if i.open && i.lastAlertedAt.None? then 1 else 0) <= 1 + l.worsened + |l.replaced|
  }

  ghost predicate KeyOk(a: Alert, incidents: seq<Incident>, issued: set<Stamp>) {
    a.key.Some? ==>
      match a.key.value
      case OpenedKey(_, n) => n < |incidents|
      case ResolvedKey(_, n) => n < |incidents| && !incidents[n].open
      case EscalatedKey(check, n, _, at) => n < |incidents| && Stamp(check, at) in issued
      case CatchupKey(check, n, _, at) => n < |incidents| && Stamp(check, at) in issued
      case EventKey(_) => true
  }

  /** The alert was stamped by this cycle. */
  ghost predicate StampedBy(a: Alert, c: Cycle) {
    && a.key.Some?
    && match a.key.value
       case EscalatedKey(check, _, _, at) => check == c.check && at == c.now
       case CatchupKey(check, _, _, at) => check == c.check && at == c.now
       case _ => false
  }

  ghost predicate PendingOk(w: World) {
    && (forall p | p in w.pending :: Stamp(w.pending[p].cycle.check, w.pending[p].cycle.now) in w.issued)
    && (forall p, a: nat | p in w.pending && a < |w.tables.alerts| :: !StampedBy(w.tables.alerts[a], w.pending[p].cycle))
    && (forall p, q | p in w.pending && q in w.pending && p != q ::
          Stamp(w.pending[p].cycle.check, w.pending[p].cycle.now) != Stamp(w.pending[q].cycle.check, w.pending[q].cycle.now))
  }

  ghost predicate RowsOk(alerts: seq<Alert>, incidents: seq<Incident>, ledgers: seq<Ledger>) {
    && |ledgers| == |incidents|
    && forall n | 0 <= n < |incidents| :: RowOk(alerts, n, incidents[n], ledgers[n])
  }

  ghost predicate KeysOk(alerts: seq<Alert>, incidents: seq<Incident>, issued: set<Stamp>) {
    forall a | 0 <= a < |alerts| :: KeyOk(alerts[a], incidents, issued)
  }

  ghost predicate Inv(w: World) {
    && OneOpen(w.tables.incidents)
    && RowsOk(w.tables.alerts, w.tables.incidents, w.ledgers)
    && KeysOk(w.tables.alerts, w.tables.incidents, w.issued)
    && PendingOk(w)
  }

  // ----- One alert more, and the outbox moving on its own --------------------------------------------

  lemma FreshKeyNotSuppressed(alerts: seq<Alert>, s: Severity, key: Key, window: int, now: Time)
    requires forall a | 0 <= a < |alerts| :: alerts[a].key != Some(key)
    ensures NewAlert(alerts, s, Some(key), window, now).status == Waiting
  {
  }

  lemma RaisedAppend(alerts: seq<Alert>, b: Alert, n: nat)
    ensures Raised(alerts + [b], n) == Raised(alerts, n) + if About(b, n) then {|alerts|} else {}
    ensures |Raised(alerts + [b], n)| == |Raised(alerts, n)| + if About(b, n) then 1 else 0
  {
  }

  lemma RaisedMoves(before: seq<Alert>, after: seq<Alert>, n: nat)
    requires Moves(before, after)
    ensures Raised(after, n) == Raised(before, n)
  {
    forall a: nat | a < |after| && About(after[a], n) ensures a < |before| && About(before[a], n) {
      if a < |before| {
        assert Evolves(before[a], after[a]);
      }
    }
    forall a: nat | a < |before| && About(before[a], n) ensures About(after[a], n) {
      assert Evolves(before[a], after[a]);
    }
  }

  lemma RowMoves(before: seq<Alert>, after: seq<Alert>, n: nat, i: Incident, l: Ledger)
    requires Moves(before, after) && RowOk(before, n, i, l)
    ensures RowOk(after, n, i, l)
  {
    RaisedMoves(before, after, n);
    forall a | a in l.replaced ensures a < |after| && About(after[a], n) && after[a].status == Failed {
      assert Evolves(before[a], after[a]);
    }
    if i.open && i.lastAlertedAt.Some? {
      assert Evolves(before[i.lastAlertId.value], after[i.lastAlertId.value]);
    }
  }

  /** An alert about another incident leaves a row alone. */
  lemma RowAppend(alerts: seq<Alert>, b: Alert, n: nat, i: Incident, l: Ledger)
    requires RowOk(alerts, n, i, l) && !About(b, n)
    ensures RowOk(alerts + [b], n, i, l)
  {
    RaisedAppend(alerts, b, n);
  }

  // ----- Every step keeps the invariant -----------------------------------------------------------------

  /** The row and ledger of an incident about which alert b was raised: for a worsening, for
      an alert still owed, or in place of one that failed. */
  lemma RaisedRow(alerts: seq<Alert>, b: Alert, n: nat, i: Incident, l: Ledger, level: Level, now: Time, m: Ledger)
    requires RowOk(alerts, n, i, l) && i.open
    requires About(b, n) && b.status == Waiting && AtLeast(b.severity, level)
    requires m == l.(worsened := l.worsened + 1) || (m == l && i.lastAlertedAt.None?)
          || (i.lastAlertedAt.Some? && i.lastAlertId.Some? && NeedsCatchup(alerts, i) && m == l.(replaced := l.replaced + {i.lastAlertId.value}))
    ensures var j := i.(lastAlertedAt := Some(now), lastAlertId := Some(|alerts|), level := level, lastSeenAt := now);
            RowOk(alerts + [b], n, j, m) && Covered(alerts + [b], j)
  {
    RaisedAppend(alerts, b, n);
    assert (alerts + [b])[|alerts|] == b;
    forall a | a in m.replaced ensures a < |alerts| && About(alerts[a], n) && alerts[a].status == Failed && (alerts + [b])[a] == alerts[a] {
    }
  }

  lemma RefreshedRow(t: Tables, id: nat, c: Cycle, l: Ledger)
    requires id < |t.incidents| && RowOk(t.alerts, id, t.incidents[id], l) && t.incidents[id].open
    requires forall a | 0 <= a < |t.alerts| :: !StampedBy(t.alerts[a], c)
    ensures var u := Refreshed(t, id, c); RowOk(u.alerts, id, u.incidents[id], RefreshedLedger(t, id, c, l))
    ensures var u := Refreshed(t, id, c); c.enabled ==> Covered(u.alerts, u.incidents[id])
  {
    if Raises(t, id, c) {
      var key := StampedKey(t.incidents[id], id, c);
      var b := NewAlert(t.alerts, SeverityOf(c.level), Some(key), c.window, c.now);
      FreshKeyNotSuppressed(t.alerts, SeverityOf(c.level), key, c.window, c.now);
      RaisedRow(t.alerts, b, id, t.incidents[id], l, c.level, c.now, RefreshedLedger(t, id, c, l));
    }
  }

  lemma RefreshingKeeps(w: World, id: nat, c: Cycle)
    requires Inv(w) && id < |w.ledgers| && IsOpen(w.tables.incidents[id], c.check)
    requires Stamp(c.check, c.now) in w.issued
    requires forall a | 0 <= a < |w.tables.alerts| :: !StampedBy(w.tables.alerts[a], c)
    requires forall p | p in w.pending :: Stamp(w.pending[p].cycle.check, w.pending[p].cycle.now) != Stamp(c.check, c.now)
    ensures Inv(Refreshing(w, id, c))
    ensures var v := Refreshing(w, id, c); c.enabled ==> Covered(v.tables.alerts, v.tables.incidents[id])
  {
    var v := Refreshing(w, id, c);
    RefreshedRow(w.tables, id, c, w.ledgers[id]);
    forall n | 0 <= n < |w.ledgers| && n != id
      ensures RowOk(v.tables.alerts, n, v.tables.incidents[n], v.ledgers[n])
    {
      if |v.tables.alerts| > |w.tables.alerts| {
        RowAppend(w.tables.alerts, v.tables.alerts[|w.tables.alerts|], n, w.tables.incidents[n], w.ledgers[n]);
      }
    }
  }

  lemma ClosedKeeps(w: World, id: nat, enabled: bool, window: int, now: Time)
    requires Inv(w) && id < |w.ledgers| && w.tables.incidents[id].open
    ensures Inv(w.(tables := Closed(w.tables, id, enabled, window, now)))
    ensures var u := Closed(w.tables, id, enabled, window, now);
            enabled ==> u.alerts[|w.tables.alerts|].status == Waiting
  {
    var t, u := w.tables, Closed(w.tables, id, enabled, window, now);
    var key := ResolvedKey(t.incidents[id].check, id);
    FreshKeyNotSuppressed(t.alerts, Info, key, window, now);
    forall n | 0 <= n < |w.ledgers| ensures RowOk(u.alerts, n, u.incidents[n], w.ledgers[n]) {
      if enabled {
        RaisedAppend(t.alerts, u.alerts[|t.alerts|], n);
      }
    }
  }

  /** Nothing was ever alerted about an incident that does not exist yet. */
  lemma NoneRaised(alerts: seq<Alert>, incidents: seq<Incident>, issued: set<Stamp>)
    requires KeysOk(alerts, incidents, issued)
    ensures Raised(alerts, |incidents|) == {}
  {
    forall a: nat | a < |alerts| ensures !About(alerts[a], |incidents|) {
      assert KeyOk(alerts[a], incidents, issued);
    }
  }

  lemma OpenedRow(t: Tables, c: Cycle, issued: set<Stamp>)
    requires KeysOk(t.alerts, t.incidents, issued)
    ensures var u := Opened(t, c); RowOk(u.alerts, |t.incidents|, u.incidents[|t.incidents|], Ledger(0, {}))
    ensures var u := Opened(t, c); c.enabled ==> Covered(u.alerts, u.incidents[|t.incidents|])
  {
    var n := |t.incidents|;
    NoneRaised(t.alerts, t.incidents, issued);
    if c.enabled {
      forall a | 0 <= a < |t.alerts| ensures t.alerts[a].key != Some(OpenedKey(c.check, n)) {
        assert KeyOk(t.alerts[a], t.incidents, issued);
      }
      FreshKeyNotSuppressed(t.alerts, SeverityOf(c.level), OpenedKey(c.check, n), c.window, c.now);
      RaisedAppend(t.alerts, Opened(t, c).alerts[|t.alerts|], n);
    }
  }

  lemma OpenedKeeps(w: World, p: nat)
    requires Inv(w) && Enabled(w, Insert(p)) && FindOpen(w.tables.incidents, w.pending[p].cycle.check).None?
    ensures Inv(Apply(w, Insert(p)))
  {
    var c, t, v := w.pending[p].cycle, w.tables, Apply(w, Insert(p));
    OpenedRow(t, c, w.issued);
    forall n | 0 <= n < |w.ledgers| ensures RowOk(v.tables.alerts, n, v.tables.incidents[n], v.ledgers[n]) {
      assert RowOk(t.alerts, n, t.incidents[n], w.ledgers[n]);
      if c.enabled {
        RowAppend(t.alerts, v.tables.alerts[|t.alerts|], n, t.incidents[n], w.ledgers[n]);
      }
    }
    forall a | 0 <= a < |v.tables.alerts| ensures KeyOk(v.tables.alerts[a], v.tables.incidents, v.issued) {
      if a < |t.alerts| {
        assert KeyOk(t.alerts[a], t.incidents, w.issued);
      }
    }
  }

  lemma OutboxKeeps(w: World, alerts: seq<Alert>)
    requires Inv(w) && Moves(w.tables.alerts, alerts)
    ensures Inv(w.(tables := w.tables.(alerts := alerts)))
  {
    var t := w.tables;
    forall n | 0 <= n < |w.ledgers| ensures RowOk(alerts, n, t.incidents[n], w.ledgers[n]) {
      RowMoves(t.alerts, alerts, n, t.incidents[n], w.ledgers[n]);
    }
    forall a | 0 <= a < |alerts|
      ensures KeyOk(alerts[a], t.incidents, w.issued)
      ensures forall p | p in w.pending :: !StampedBy(alerts[a], w.pending[p].cycle)
    {
      if a < |t.alerts| {
        assert Evolves(t.alerts[a], alerts[a]) && KeyOk(t.alerts[a], t.incidents, w.issued);
      }
    }
  }

  /** A cycle that starts now is the only one with its instant. */
  lemma FreshCycle(w: World, p: nat, c: Cycle)
    requires Inv(w) && Enabled(w, Begin(p, c))
    ensures forall a | 0 <= a < |w.tables.alerts| :: !StampedBy(w.tables.alerts[a], c)
    ensures Inv(w.(issued := w.issued + {Stamp(c.check, c.now)}))
    ensures Inv(w.(issued := w.issued + {Stamp(c.check, c.now)}, pending := w.pending[p := Inserting(c)]))
  {
    forall a | 0 <= a < |w.tables.alerts| ensures !StampedBy(w.tables.alerts[a], c) {
      assert KeyOk(w.tables.alerts[a], w.tables.incidents, w.issued);
    }
  }

  lemma InvStep(w: World, a: Action)
    requires Inv(w) && Enabled(w, a)
    ensures Inv(Apply(w, a))
  {
    match a
    case Healthy(check, enabled, window, now) =>
      var found := FindOpen(w.tables.incidents, check);
      if found.Some? {
        ClosedKeeps(w, found.value, enabled, window, now);
      }
    case Begin(p, c) =>
      FreshCycle(w, p, c);
      var found := FindOpen(w.tables.incidents, c.check);
      if found.Some? {
        RefreshingKeeps(w.(issued := w.issued + {Stamp(c.check, c.now)}), found.value, c);
      }
    case Insert(p) =>
      if FindOpen(w.tables.incidents, w.pending[p].cycle.check).None? {
        OpenedKeeps(w, p);
      }
    case Retry(p) =>
      var c := w.pending[p].cycle;
      var found := FindOpen(w.tables.incidents, c.check);
      assert Inv(w.(pending := w.pending - {p}));
      if found.Some? {
        RefreshingKeeps(w.(pending := w.pending - {p}), found.value, c);
      }
    case Crash(p) =>
    case Outbox(alerts) => OutboxKeeps(w, alerts);
  }

  ghost function Invariant(): (p: World -> bool) {
    w => Inv(w)
  }

  lemma InvInductive()
    ensures Runs.Inductive(Start(), Steps(), Invariant())
  {
    forall w | Init(w) ensures Inv(w) {
      assert Raised([], 0) == {};
    }
    forall w, v | Inv(w) && Next(w, v) ensures Inv(v) {
      var a :| Enabled(w, a) && v == Apply(w, a);
      InvStep(w, a);
    }
  }

  lemma ReachableInv(w: World)
    requires Reachable(w)
    ensures Inv(w)
  {
    InvInductive();
    Runs.ReachableInv(Start(), Steps(), Invariant(), w);
  }

  // ----- What the monitors guarantee -----------------------------------------------------------------------

  /** Racing monitors never leave two open incidents for one check, so the lookup finds the
      open incident whenever there is one. */
  lemma AtMostOneOpen(w: World, check: string, i: nat)
    requires Reachable(w) && i < |w.tables.incidents|
    ensures IsOpen(w.tables.incidents[i], check) <==> FindOpen(w.tables.incidents, check) == Some(i)
  {
    ReachableInv(w);
    var found := FindOpen(w.tables.incidents, check);
    if found.Some? && IsOpen(w.tables.incidents[i], check) {
      assert IsOpen(w.tables.incidents[found.value], check);
    }
  }

  /** The step that ends an unhealthy cycle. */
  ghost predicate Ends(w: World, a: Action, c: Cycle) {
    match a
    case Begin(_, d) => d == c && FindOpen(w.tables.incidents, c.check).Some?
    case Insert(p) => p in w.pending && w.pending[p].cycle == c && FindOpen(w.tables.incidents, c.check).None?
    case Retry(p) => p in w.pending && w.pending[p].cycle == c
    case _ => false
  }

  /** In every reachable state the alert that announces an opening or a recovery is sent. */
  lemma OpenedByColumns(w: World, c: Cycle)
    requires Reachable(w)
    ensures Inserted(w.tables, Opened(w.tables, c), c)
  {
    ReachableInv(w);
    OpenedRow(w.tables, c, w.issued);
  }

  lemma ClosedByColumns(w: World, id: nat, enabled: bool, window: int, now: Time)
    requires Reachable(w) && id < |w.tables.incidents| && w.tables.incidents[id].open
    ensures Resolved(w.tables, Closed(w.tables, id, enabled, window, now), id, enabled, now)
  {
    ReachableInv(w);
    ClosedKeeps(w, id, enabled, window, now);
  }

  /** Where the open incident of a check is after the last step of a cycle. */
  lemma EndsCovered(w: World, a: Action, c: Cycle)
    requires Inv(w) && Enabled(w, a) && Ends(w, a, c) && c.enabled
    ensures var found, t := FindOpen(w.tables.incidents, c.check), Apply(w, a).tables;
            var i := if found.Some? then found.value else |w.tables.incidents|;
            found.Some? || a.Insert? ==>
              && i < |t.incidents| && IsOpen(t.incidents[i], c.check)
              && t.incidents[i].level == c.level && Covered(t.alerts, t.incidents[i])
  {
    var found := FindOpen(w.tables.incidents, c.check);
    if a.Begin? {
      FreshCycle(w, a.process, c);
      RefreshingKeeps(w.(issued := w.issued + {Stamp(c.check, c.now)}), found.value, c);
    } else if a.Insert? {
      OpenedRow(w.tables, c, w.issued);
    } else if found.Some? {
      assert Inv(w.(pending := w.pending - {a.process}));
      RefreshingKeeps(w.(pending := w.pending - {a.process}), found.value, c);
    }
  }

  /** After every unhealthy cycle with alerting on, the open incident of its check is covered,
      whatever the alerting switches, the outbox and the other monitors did before. */
  lemma NoSilentIncident(w: World, a: Action, c: Cycle, i: nat)
    requires Reachable(w) && |w.ledgers| == |w.tables.incidents| && Enabled(w, a) && Ends(w, a, c) && c.enabled
    ensures var t := Apply(w, a).tables;
            i < |t.incidents| && IsOpen(t.incidents[i], c.check) ==>
              t.incidents[i].level == c.level && Covered(t.alerts, t.incidents[i])
  {
    ReachableInv(w);
    EndsCovered(w, a, c);
    InvStep(w, a);
    assert OneOpen(Apply(w, a).tables.incidents);
  }

  /** A healthy reading closes the open incident of its check and, with alerting on, adds
      exactly one alert about the recovery, which is not suppressed. */
  lemma RecoveryAnnounced(w: World, check: string, enabled: bool, window: int, now: Time)
    requires Reachable(w) && |w.ledgers| == |w.tables.incidents| && FindOpen(w.tables.incidents, check).Some?
    ensures var id, t, u := FindOpen(w.tables.incidents, check).value, w.tables, Apply(w, Healthy(check, enabled, window, now)).tables;
            && |u.incidents| == |t.incidents| && !u.incidents[id].open && u.incidents[id].resolvedAt == Some(now)
            && (!enabled ==> u.alerts == t.alerts)
            && (enabled ==>
                  && |u.alerts| == |t.alerts| + 1 && u.alerts[..|t.alerts|] == t.alerts
                  && u.alerts[|t.alerts|].key == Some(ResolvedKey(check, id)) && u.alerts[|t.alerts|].status == Waiting
                  && u.incidents[id].lastAlertId == Some(|t.alerts|))
  {
    ReachableInv(w);
    ClosedKeeps(w, FindOpen(w.tables.incidents, check).value, enabled, window, now);
  }

  /** A cycle on an open incident alerts exactly when alerting is on and the reading got
      worse or the incident is not covered: an unchanged cycle adds nothing. */
  lemma AlertsOnlyOnChange(w: World, id: nat, c: Cycle)
    requires Reachable(w) && id < |w.tables.incidents| && w.tables.incidents[id].open
    ensures var t, u := w.tables, Refreshed(w.tables, id, c);
            var news := c.enabled && (Worse(c.level, t.incidents[id].level) || t.incidents[id].lastAlertedAt.None? || !Covered(t.alerts, t.incidents[id]));
            && (news <==> u.alerts != t.alerts)
            && (news ==> u.alerts[..|u.alerts| - 1] == t.alerts)
  {
    ReachableInv(w);
    assert RowOk(w.tables.alerts, id, w.tables.incidents[id], w.ledgers[id]);
  }

  /** An incident is announced at most once for its opening, once for every time it got
      worse and once for every alert of its own that failed for good. */
  lemma AnnouncementsBounded(w: World, i: nat)
    requires Reachable(w) && i < |w.tables.incidents|
    ensures |w.ledgers| == |w.tables.incidents|
    ensures ghost var failed := set a | a in Raised(w.tables.alerts, i) && w.tables.alerts[a].status == Failed;
            |Raised(w.tables.alerts, i)| <= 1 + w.ledgers[i].worsened + |failed|
  {
    ReachableInv(w);
    var failed := set a | a in Raised(w.tables.alerts, i) && w.tables.alerts[a].status == Failed;
    assert RowOk(w.tables.alerts, i, w.tables.incidents[i], w.ledgers[i]);
    assert w.ledgers[i].replaced <= failed;
    SubsetSize(w.ledgers[i].replaced, failed);
  }

  lemma {:induction false} SubsetSize(a: set<nat>, b: set<nat>)
    requires a <= b
    ensures |a| <= |b|
  {
    if x :| x in a {
      SubsetSize(a - {x}, b - {x});
    }
  }

  // ----- Two cycles with the same instant ---------------------------------------------------------------------

  /** The same monitors with a clock that may show one instant twice. */
  ghost predicate LooseNext(w: World, v: World) {
    |w.ledgers| == |w.tables.incidents| && exists a :: Possible(w, a) && v == Apply(w, a)
  }

  ghost function LooseSteps(): (p: (World, World) -> bool) {
    (w: World, v: World) => LooseNext(w, v)
  }

  ghost predicate LooselyReachable(w: World) {
    Runs.Reachable(Start(), LooseSteps(), w)
  }

  /** A stamped alert was created at the instant in its key. */
  ghost predicate DatedAlert(a: Alert) {
    a.key.Some? ==>
      match a.key.value
      case EscalatedKey(_, _, _, at) => a.createdAt == at
      case CatchupKey(_, _, _, at) => a.createdAt == at
      case _ => true
  }

  ghost predicate Dated(w: World) {
    |w.ledgers| == |w.tables.incidents| && forall a | 0 <= a < |w.tables.alerts| :: DatedAlert(w.tables.alerts[a])
  }

  lemma DatedStep(w: World, a: Action)
    requires Dated(w) && Possible(w, a)
    ensures Dated(Apply(w, a))
  {
    var v := Apply(w, a);
    if a.Outbox? {
      forall i | 0 <= i < |a.alerts| ensures DatedAlert(a.alerts[i]) {
        if i < |w.tables.alerts| {
          assert Evolves(w.tables.alerts[i], a.alerts[i]) && DatedAlert(w.tables.alerts[i]);
        }
      }
    }
  }

  lemma LooselyReachableDated(w: World)
    requires LooselyReachable(w)
    ensures Dated(w)
  {
    var inv := (u: World) => Dated(u);
    forall u, v | Dated(u) && LooseNext(u, v) ensures Dated(v) {
      var a :| Possible(u, a) && v == Apply(u, a);
      DatedStep(u, a);
    }
    Runs.ReachableInv(Start(), LooseSteps(), inv, w);
  }

  /** With no assumption on instants, in every reachable state: a cycle that has to alert
      covers its incident exactly when no alert with the same key exists that was not itself
      suppressed; that is, when no earlier cycle at this instant sent the same kind of alert. */
  lemma CoveredExactlyWithFreshKey(w: World, id: nat, c: Cycle)
    requires LooselyReachable(w) && id < |w.tables.incidents| && Raises(w.tables, id, c) && c.window >= 0
    ensures var t, u := w.tables, Refreshed(w.tables, id, c);
            Covered(u.alerts, u.incidents[id]) <==>
              forall a | 0 <= a < |t.alerts| && t.alerts[a].key == Some(StampedKey(t.incidents[id], id, c)) :: t.alerts[a].status == Suppressed
  {
    LooselyReachableDated(w);
    var t := w.tables;
    var key := StampedKey(t.incidents[id], id, c);
    var cutoff := c.now - 60.0 * c.window as real;
    assert cutoff <= c.now;
    if a :| 0 <= a < |t.alerts| && t.alerts[a].key == Some(key) && t.alerts[a].status != Suppressed {
      assert DatedAlert(t.alerts[a]);
      assert Duplicates(t.alerts[a], key, cutoff);
      assert HasDuplicate(t.alerts, Some(key), cutoff);
    }
  }

  /** Once an incident's last alert was suppressed, no unhealthy cycle that is not worse
      ever alerts about it again. */
  lemma SuppressedStaysSilent(t: Tables, id: nat, c: Cycle)
    requires id < |t.incidents| && t.incidents[id].lastAlertedAt.Some? && t.incidents[id].lastAlertId.Some?
    requires t.incidents[id].lastAlertId.value < |t.alerts| && t.alerts[t.incidents[id].lastAlertId.value].status == Suppressed
    requires !Worse(c.level, t.incidents[id].level)
    ensures Refreshed(t, id, c).alerts == t.alerts
    ensures Refreshed(t, id, c).incidents[id] == t.incidents[id].(level := c.level, lastSeenAt := c.now)
  {
  }

  /** The check has an open incident, and it is covered. */
  ghost predicate CheckCovered(incidents: seq<Incident>, alerts: seq<Alert>, check: string) {
    var found := FindOpen(incidents, check);
    found.Some? && Covered(alerts, incidents[found.value])
  }

  lemma ClosesCheck(w: World, check: string, enabled: bool, window: int, now: Time)
    requires Reachable(w) && |w.ledgers| == |w.tables.incidents|
    ensures FindOpen(Apply(w, Healthy(check, enabled, window, now)).tables.incidents, check).None?
  {
    ReachableInv(w);
    var u := Apply(w, Healthy(check, enabled, window, now)).tables.incidents;
    var found := FindOpen(w.tables.incidents, check);
    forall i | 0 <= i < |u| ensures !IsOpen(u[i], check) {
      if found.Some? && i != found.value {
        AtMostOneOpen(w, check, i);
      }
    }
  }

  lemma EndCovers(w: World, a: Action, c: Cycle)
    requires Reachable(w) && |w.ledgers| == |w.tables.incidents| && Enabled(w, a) && Ends(w, a, c) && c.enabled
    requires a.Retry? ==> FindOpen(w.tables.incidents, c.check).Some?
    ensures CheckCovered(Apply(w, a).tables.incidents, Apply(w, a).tables.alerts, c.check)
  {
    var found := FindOpen(w.tables.incidents, c.check);
    var u := Apply(w, a).tables;
    var id := if found.Some? then found.value else |w.tables.incidents|;
    assert IsOpen(u.incidents[id], c.check);
    NoSilentIncident(w, a, c, FindOpen(u.incidents, c.check).value);
  }
}
