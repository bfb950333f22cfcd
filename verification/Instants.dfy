/** Monitor cycles that carry the same instant (app/services/monitor_incidents.py): a run of the
    monitors and of the outbox at whose end an ongoing incident is left without an alert. */
module Instants {
  import opened Common
  import opened Incidents
  import Alerts
  import Runs

  /** A cycle of one check, with alerting on or off. */
  function Reading(enabled: bool, now: Time): (c: Cycle) {
    Cycle("disk_space", CriticalLevel, enabled, 30, now)
  }

  ghost predicate Takes(w: World, a: Action, v: World) {
    LooselyReachable(w) && |w.ledgers| == |w.tables.incidents| && Possible(w, a) && v == Apply(w, a)
  }

  lemma Taken(w: World, a: Action, v: World)
    requires Takes(w, a, v)
    ensures LooselyReachable(v) && |v.ledgers| == |v.tables.incidents|
  {
    assert LooseNext(w, v);
    Runs.StepReachable(Start(), LooseSteps(), w, v);
    LooselyReachableDated(v);
  }

  /** The incident opens while alerting is off. */
  lemma OpensSilently() returns (w: World)
    ensures LooselyReachable(w) && |w.ledgers| == 1
    ensures w.tables == Tables([Incident("disk_space", CriticalLevel, true, 0.0, 0.0, None, None, None)], [])
    ensures w.pending == map[]
  {
    var start := World(Tables([], []), [], map[], {});
    Runs.InitReachable(Start(), LooseSteps(), start);
    var begun := Apply(start, Begin(0, Reading(false, 0.0)));
    Taken(start, Begin(0, Reading(false, 0.0)), begun);
    w := Apply(begun, Insert(0));
    Taken(begun, Insert(0), w);
  }

  /** The catch-up alert of the first cycle with alerting on. */
  function CatchUp(): (a: Alerts.Alert) {
    Alerts.Alert(Alerts.Critical, Some(Alerts.CatchupKey("disk_space", 0, Alerts.Critical, 5.0)), Alerts.Waiting,
                 0, Some(5.0), None, None, None, None, 5.0)
  }

  /** Alerting comes on: the catch-up alert is queued. */
  lemma CatchesUp() returns (w: World)
    ensures LooselyReachable(w) && |w.ledgers| == 1 && w.pending == map[]
    ensures w.tables == Tables([Incident("disk_space", CriticalLevel, true, 0.0, 5.0, None, Some(5.0), Some(0))], [CatchUp()])
  {
    var silent := OpensSilently();
    var a := Begin(1, Reading(true, 5.0));
    assert FindOpen(silent.tables.incidents, "disk_space") == Some(0);
    w := Apply(silent, a);
    Taken(silent, a, w);
  }

  /** Its only delivery attempt fails for good. */
  lemma FailsAtOnce(cfg: Alerts.Config) returns (f: Alerts.Flow)
    requires Alerts.ValidConfig(cfg)
    ensures Alerts.Reachable(cfg, f) && f.row.status == Alerts.Failed && f.row.key == CatchUp().key
    ensures Alerts.Evolves(CatchUp(), f.row)
  {
    var waiting := Alerts.Flow(CatchUp(), map[], [], 0);
    Runs.InitReachable(Alerts.Start(), Alerts.Steps(cfg), waiting);
    var claim := Alerts.Claim("worker", 5.0);
    var sending := Alerts.Apply(cfg, waiting, claim);
    Runs.StepReachable(Alerts.Start(), Alerts.Steps(cfg), waiting, sending);
    var result := Alerts.Record(1, Alerts.Outcome(0, false, None, Some("telegram_forbidden")), 5.0, 1.0);
    assert Alerts.OwnsAlert(sending.row, sending.tokens[1], 1);
    f := Alerts.Apply(cfg, sending, result);
    Runs.StepReachable(Alerts.Start(), Alerts.Steps(cfg), sending, f);
  }

  /** A run of monitors and outbox after which a cycle with alerting on leaves the open incident
      of its check without any alert that could reach an administrator: its catch-up alert has
      failed, and the replacement has the same instant and so the same key. */
  lemma SameInstantSilences(cfg: Alerts.Config)
    requires Alerts.ValidConfig(cfg)
    ensures exists w: World, a: Action, c: Cycle, id: nat ::
              && LooselyReachable(w) && |w.ledgers| == |w.tables.incidents| && Possible(w, a) && Ends(w, a, c) && c.enabled
              && id < |Apply(w, a).tables.incidents| && IsOpen(Apply(w, a).tables.incidents[id], c.check)
              && !Covered(Apply(w, a).tables.alerts, Apply(w, a).tables.incidents[id])
  {
    var queued := CatchesUp();
    var f := FailsAtOnce(cfg);
    var outbox := Outbox([f.row]);
    var w := Apply(queued, outbox);
    Taken(queued, outbox, w);
    var c := Reading(true, 5.0);
    var a := Begin(2, c);
    assert FindOpen(w.tables.incidents, "disk_space") == Some(0);
    assert StampedKey(w.tables.incidents[0], 0, c) == f.row.key.value;
    CoveredExactlyWithFreshKey(w, 0, c);
    assert w.tables.alerts[0] == f.row;
    assert Apply(w, a).tables == Refreshed(w.tables, 0, c);
    assert !Covered(Apply(w, a).tables.alerts, Apply(w, a).tables.incidents[0]);
    assert Possible(w, a) && Ends(w, a, c) && IsOpen(Apply(w, a).tables.incidents[0], c.check);
  }
}
