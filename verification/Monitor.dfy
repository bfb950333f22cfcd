/** The monitor's transactions (app/services/monitor_incidents.py), one method for each
    stretch of record_check_result between two commits. */
module Monitor {
  import opened Common
  import opened Incidents
  import Alerts
  import Runs

  datatype Transition = WasOpened | WasClosed | WasEscalated | UnchangedUnhealthy | UnchangedHealthy | CaughtUp

  /** What record_check_result reports about a cycle on an open incident. */
  function TransitionOf(t: Tables, id: nat, c: Cycle): (r: Transition)
    requires id < |t.incidents|
  {
    if Worse(c.level, t.incidents[id].level) then WasEscalated
    else if Raises(t, id, c) then CaughtUp
    else UnchangedUnhealthy
  }

  /** What is reported: a worsening, else an alert that was still owed, else nothing new. */
  ghost predicate Reports(before: seq<Incident>, alerted: bool, id: nat, c: Cycle, r: Transition)
    requires id < |before|
  {
    var worse := c.level == CriticalLevel && before[id].level == WarningLevel;
    r == if worse then WasEscalated else if alerted then CaughtUp else UnchangedUnhealthy
  }

  class MonitorStore {
    var incidents: seq<Incident>
    var alerts: seq<Alerts.Alert>
    ghost var world: World

    ghost predicate Valid()
      reads this
    {
      world.tables == Tables(incidents, alerts) && Reachable(world) && |world.ledgers| == |incidents|
    }

    constructor ()
      ensures Valid() && incidents == [] && alerts == [] && world.pending == map[]
    {
      incidents, alerts := [], [];
      world := World(Tables([], []), [], map[], {});
      Runs.InitReachable(Start(), Steps(), World(Tables([], []), [], map[], {}));
    }

    /** The history takes the step a transaction has just committed. */
    ghost method Commit(a: Action)
      requires Reachable(world) && |world.ledgers| == |world.tables.incidents| && Enabled(world, a)
      requires Apply(world, a).tables == Tables(incidents, alerts)
      modifies this`world
      ensures Valid() && world == Apply(old(world), a)
    {
      Runs.StepReachable(Start(), Steps(), world, Apply(world, a));
      world := Apply(world, a);
      ReachableInv(world);
    }

    /** create_alert, with the row's reference to it. */
    method RaiseAlert(id: nat, severity: Alerts.Severity, key: Alerts.Key, window: int, now: Time)
      requires id < |incidents|
      modifies this`incidents, this`alerts
      ensures Tables(incidents, alerts) == Raise(Tables(old(incidents), old(alerts)), id, severity, key, window, now)
    {
      var alert := Alerts.NewAlert(alerts, severity, Some(key), window, now);
      incidents := incidents[id := incidents[id].(lastAlertedAt := Some(now), lastAlertId := Some(|alerts|))];
      alerts := alerts + [alert];
    }

    /** _handle_healthy. */
    method HandleHealthy(check: string, enabled: bool, window: int, now: Time) returns (r: Transition)
      requires Valid()
      modifies this
      ensures Valid() && world == Apply(old(world), Healthy(check, enabled, window, now))
      ensures r == (if FindOpen(old(incidents), check).Some? then WasClosed else UnchangedHealthy)
      ensures FindOpen(incidents, check).None?
      ensures var t, found := Tables(old(incidents), old(alerts)), FindOpen(old(incidents), check);
              if found.Some? then Resolved(t, Tables(incidents, alerts), found.value, enabled, now) else Tables(incidents, alerts) == t
    {
      ghost var a := Healthy(check, enabled, window, now);
      var found := FindOpen(incidents, check);
      if found.None? {
        Commit(a);
        return UnchangedHealthy;
      }
      var id := found.value;
      ClosesCheck(world, check, enabled, window, now);
      ClosedByColumns(world, id, enabled, window, now);
      incidents := incidents[id := incidents[id].(open := false)];
      incidents := incidents[id := incidents[id].(resolvedAt := Some(now))];
      incidents := incidents[id := incidents[id].(lastSeenAt := now)];
      if enabled {
        RaiseAlert(id, Alerts.Info, Alerts.ResolvedKey(incidents[id].check, id), window, now);
      }
      Commit(a);
      r := WasClosed;
    }

    /** The locked update of an incident that is already open. */
    method Refresh(id: nat, c: Cycle) returns (r: Transition)
      requires id < |incidents|
      modifies this`incidents, this`alerts
      ensures Tables(incidents, alerts) == Refreshed(Tables(old(incidents), old(alerts)), id, c)
      ensures r == TransitionOf(Tables(old(incidents), old(alerts)), id, c)
      ensures Updated(Tables(old(incidents), old(alerts)), Tables(incidents, alerts), id, c)
      ensures Reports(old(incidents), alerts != old(alerts), id, c, r)
    {
      RefreshedByColumns(Tables(incidents, alerts), id, c);
      var key := StampedKey(incidents[id], id, c);
      incidents := incidents[id := incidents[id].(lastSeenAt := c.now)];
      if c.level != incidents[id].level && Worse(c.level, incidents[id].level) {
        incidents := incidents[id := incidents[id].(level := c.level)];
        if c.enabled {
          RaiseAlert(id, SeverityOf(c.level), key, c.window, c.now);
        } else {
          incidents := incidents[id := incidents[id].(lastAlertedAt := None)];
        }
        return WasEscalated;
      }
      if c.level != incidents[id].level {
        incidents := incidents[id := incidents[id].(level := c.level)];
      }
      if NeedsCatchup(alerts, incidents[id]) && c.enabled {
        RaiseAlert(id, SeverityOf(incidents[id].level), key, c.window, c.now);
        return CaughtUp;
      }
      return UnchangedUnhealthy;
    }

    /** _handle_unhealthy up to its first commit: the open incident is updated, or the
        process goes on to insert one. */
    method BeginUnhealthy(p: nat, c: Cycle) returns (r: Option<Transition>)
      requires Valid() && Enabled(world, Begin(p, c))
      modifies this
      ensures Valid() && world == Apply(old(world), Begin(p, c))
      ensures r.None? <==> FindOpen(old(incidents), c.check).None?
      ensures r.None? ==> incidents == old(incidents) && alerts == old(alerts) && Enabled(world, Insert(p))
      ensures r.Some? && c.enabled ==> CheckCovered(incidents, alerts, c.check)
      ensures r.Some? ==> Reports(old(incidents), alerts != old(alerts), FindOpen(old(incidents), c.check).value, c, r.value)
      ensures r.Some? ==> Updated(Tables(old(incidents), old(alerts)), Tables(incidents, alerts), FindOpen(old(incidents), c.check).value, c)
    {
      var found := FindOpen(incidents, c.check);
      if found.None? {
        Commit(Begin(p, c));
        return None;
      }
      if c.enabled {
        EndCovers(world, Begin(p, c), c);
      }
      var t := Refresh(found.value, c);
      Commit(Begin(p, c));
      r := Some(t);
    }

    /** The optimistic INSERT: false when a racing monitor holds the open row. */
    method InsertIncident(p: nat, c: Cycle) returns (ok: bool)
      requires Valid() && Enabled(world, Insert(p)) && world.pending[p].cycle == c
      modifies this
      ensures Valid() && world == Apply(old(world), Insert(p))
      ensures ok <==> FindOpen(old(incidents), c.check).None?
      ensures !ok ==> incidents == old(incidents) && alerts == old(alerts) && Enabled(world, Retry(p))
      ensures ok && c.enabled ==> CheckCovered(incidents, alerts, c.check)
      ensures ok ==> Inserted(Tables(old(incidents), old(alerts)), Tables(incidents, alerts), c)
    {
      if FindOpen(incidents, c.check).Some? {
        Commit(Insert(p));
        return false;
      }
      if c.enabled {
        EndCovers(world, Insert(p), c);
      }
      OpenedByColumns(world, c);
      var id := |incidents|;
      incidents := incidents + [Incident(c.check, c.level, true, c.now, c.now, None, None, None)];
      if c.enabled {
        RaiseAlert(id, SeverityOf(c.level), Alerts.OpenedKey(c.check, id), c.window, c.now);
      }
      Commit(Insert(p));
      ok := true;
    }

    /** After a lost race: the winner's row is updated, or nothing is done when it was
        resolved meanwhile. */
    method RetryUnhealthy(p: nat, c: Cycle) returns (r: Transition)
      requires Valid() && Enabled(world, Retry(p)) && world.pending[p].cycle == c
      modifies this
      ensures Valid() && world == Apply(old(world), Retry(p))
      ensures FindOpen(old(incidents), c.check).None? ==>
                r == UnchangedUnhealthy && incidents == old(incidents) && alerts == old(alerts)
      ensures FindOpen(old(incidents), c.check).Some? && c.enabled ==> CheckCovered(incidents, alerts, c.check)
      ensures FindOpen(old(incidents), c.check).Some? ==>
                Reports(old(incidents), alerts != old(alerts), FindOpen(old(incidents), c.check).value, c, r)
      ensures FindOpen(old(incidents), c.check).Some? ==>
                Updated(Tables(old(incidents), old(alerts)), Tables(incidents, alerts), FindOpen(old(incidents), c.check).value, c)
    {
      var found := FindOpen(incidents, c.check);
      if found.None? {
        Commit(Retry(p));
        return UnchangedUnhealthy;
      }
      if c.enabled {
        EndCovers(world, Retry(p), c);
      }
      r := Refresh(found.value, c);
      Commit(Retry(p));
    }
  }
}
