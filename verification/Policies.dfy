/** The fee policy timeline (app/services/fees.py and the fee commands of app/ops.py):
    append-only rows, selection by instant, and operators whose transactions read the
    clock some time before they commit. */
module Policies {
  import opened Common
  import Fees
  import Runs

  /** `id` is drawn from the sequence when the row is flushed; rows are listed in commit order,
      which may differ. */
  datatype Policy = Policy(id: nat, rateBps: int, effectiveAt: Time, cancelledAt: Option<Time>)

  predicate Active(p: Policy, at: Time) {
    p.effectiveAt <= at && p.cancelledAt.None?
  }

  /** ORDER BY effective_at DESC, id DESC. */
  predicate Ahead(p: Policy, q: Policy) {
    p.effectiveAt > q.effectiveAt || (p.effectiveAt == q.effectiveAt && p.id > q.id)
  }

  /** select_effective_policy; the result is the row's position. */
  function Select(ps: seq<Policy>, at: Time): (r: Option<nat>)
    ensures r.Some? ==> r.value < |ps|
  {
    if ps == [] then None
    else
      var n := |ps| - 1;
      var rest := Select(ps[..n], at);
      if Active(ps[n], at) && (rest.None? || Ahead(ps[n], ps[rest.value])) then Some(n) else rest
  }

  /** The primary key. */
  ghost predicate Keyed(ps: seq<Policy>) {
    forall i, j | 0 <= i < j < |ps| :: ps[i].id != ps[j].id
  }

  predicate FreshId(ps: seq<Policy>, id: nat) {
    forall i | 0 <= i < |ps| :: ps[i].id != id
  }

  /** The selected policy, said as a maximum. */
  ghost predicate Selected(ps: seq<Policy>, at: Time, r: Option<nat>) {
    match r
    case None => forall j | 0 <= j < |ps| :: !Active(ps[j], at)
    case Some(i) => i < |ps| && Active(ps[i], at) && forall j | 0 <= j < |ps| && j != i && Active(ps[j], at) :: Ahead(ps[i], ps[j])
  }

  lemma {:induction false} SelectIsMaximum(ps: seq<Policy>, at: Time)
    requires Keyed(ps)
    ensures Selected(ps, at, Select(ps, at))
  {
    if ps != [] {
      var n := |ps| - 1;
      SelectIsMaximum(ps[..n], at);
      forall j | 0 <= j < n && Active(ps[j], at) ensures Active(ps[..n][j], at) {
      }
    }
  }

  lemma SelectedUnique(ps: seq<Policy>, at: Time, r: Option<nat>)
    requires Keyed(ps) && Selected(ps, at, r)
    ensures r == Select(ps, at)
  {
    SelectIsMaximum(ps, at);
  }

  // ----- What the operators' transactions do to the timeline ---------------------------------------------

  function Appended(ps: seq<Policy>, id: nat, rateBps: int, effectiveAt: Time): (qs: seq<Policy>) {
    ps + [Policy(id, rateBps, effectiveAt, None)]
  }

  function Cancelled(ps: seq<Policy>, row: nat, now: Time): (qs: seq<Policy>)
    requires row < |ps|
  {
    ps[row := ps[row].(cancelledAt := Some(now))]
  }

  /** A policy in force for the same instant has a higher id. */
  ghost predicate Outranked(ps: seq<Policy>, id: nat, effectiveAt: Time) {
    exists j | 0 <= j < |ps| :: ps[j].effectiveAt == effectiveAt && ps[j].cancelledAt.None? && ps[j].id > id
  }

  /** A new policy changes nothing before its own instant, and nothing at all when it is outranked
      there; otherwise it is what counts at that instant. */
  lemma AppendedSelection(ps: seq<Policy>, id: nat, rateBps: int, effectiveAt: Time, at: Time)
    requires Keyed(ps) && FreshId(ps, id)
    ensures Keyed(Appended(ps, id, rateBps, effectiveAt))
    ensures at < effectiveAt || Outranked(ps, id, effectiveAt) ==> Select(Appended(ps, id, rateBps, effectiveAt), at) == Select(ps, at)
    ensures !Outranked(ps, id, effectiveAt) ==> Select(Appended(ps, id, rateBps, effectiveAt), effectiveAt) == Some(|ps|)
  {
    var qs := Appended(ps, id, rateBps, effectiveAt);
    assert qs[..|ps|] == ps;
    SelectIsMaximum(ps, effectiveAt);
    SelectIsMaximum(ps, at);
    if Outranked(ps, id, effectiveAt) {
      var j :| 0 <= j < |ps| && ps[j].effectiveAt == effectiveAt && ps[j].cancelledAt.None? && ps[j].id > id;
      assert Active(ps[j], at) <==> effectiveAt <= at;
    }
  }

  /** Cancelling changes nothing before the cancelled policy's instant. */
  lemma CancelledStable(ps: seq<Policy>, row: nat, now: Time, at: Time)
    requires Keyed(ps) && row < |ps| && at < ps[row].effectiveAt
    ensures Select(Cancelled(ps, row, now), at) == Select(ps, at)
  {
    var qs := Cancelled(ps, row, now);
    var r := Select(ps, at);
    SelectIsMaximum(ps, at);
    assert Selected(qs, at, r);
    SelectedUnique(qs, at, r);
  }

  // ----- Runs ----------------------------------------------------------------------------------------------

  /** The table, the commit clock, and for every committed operation the clock it had read. */
  datatype Timeline = Timeline(policies: seq<Policy>, clock: Time, stamps: seq<Time>)

  datatype Action =
    | Set(id: nat, rateBps: int, read: Time, commit: Time)
    | Schedule(id: nat, rateBps: int, effectiveAt: Time, read: Time, commit: Time)
    | Cancel(row: nat, read: Time, commit: Time)

  predicate ValidRate(rateBps: int) {
    0 <= rateBps <= Fees.MAX_RATE_BPS
  }

  /** cancel_policy compares the clock it read before it waited for the row lock. */
  predicate Cancellable(ps: seq<Policy>, row: nat, read: Time) {
    row < |ps| && ps[row].cancelledAt.None? && ps[row].effectiveAt > read
  }

  ghost predicate Enabled(s: Timeline, a: Action) {
    && a.read <= a.commit && s.clock <= a.commit
    && match a
       case Set(id, rate, _, _) => FreshId(s.policies, id) && ValidRate(rate)
       case Schedule(id, rate, at, read, _) => FreshId(s.policies, id) && ValidRate(rate) && at > read
       case Cancel(row, read, _) => Cancellable(s.policies, row, read)
  }

  ghost function Apply(s: Timeline, a: Action): (t: Timeline)
    requires Enabled(s, a)
  {
    var ps := match a
      case Set(id, rate, read, _) => Appended(s.policies, id, rate, read)
      case Schedule(id, rate, at, _, _) => Appended(s.policies, id, rate, at)
      case Cancel(row, read, _) => Cancelled(s.policies, row, read);
    Timeline(ps, a.commit, s.stamps + [a.read])
  }

  ghost predicate Next(s: Timeline, t: Timeline) {
    exists a :: Enabled(s, a) && t == Apply(s, a)
  }

  ghost function Start(): (p: Timeline -> bool) {
    (s: Timeline) => s.policies == [] && s.stamps == []
  }

  ghost function Steps(): (p: (Timeline, Timeline) -> bool) {
    (s: Timeline, t: Timeline) => Next(s, t)
  }

  ghost predicate Reachable(s: Timeline) {
    Runs.Reachable(Start(), Steps(), s)
  }

  ghost function KeyedTable(): (p: Timeline -> bool) {
    (s: Timeline) => Keyed(s.policies)
  }

  lemma KeyedInductive()
    ensures Runs.Inductive(Start(), Steps(), KeyedTable())
  {
  }

  lemma ReachableKeyed(s: Timeline)
    requires Reachable(s)
    ensures Keyed(s.policies)
  {
    KeyedInductive();
    Runs.ReachableInv(Start(), Steps(), KeyedTable(), s);
  }

  /** Every operation committed since s had read a clock later than `at`. */
  ghost predicate ReadAfter(s: Timeline, t: Timeline, at: Time) {
    && |s.stamps| <= |t.stamps| && t.stamps[..|s.stamps|] == s.stamps
    && forall i | |s.stamps| <= i < |t.stamps| :: t.stamps[i] > at
  }

  ghost function Stable(at: Time): (p: (Timeline, Timeline) -> bool) {
    (s: Timeline, t: Timeline) =>
      && |s.stamps| <= |t.stamps| && t.stamps[..|s.stamps|] == s.stamps
      && (ReadAfter(s, t, at) ==> Select(s.policies, at) == Select(t.policies, at))
  }

  lemma StepStable(s: Timeline, a: Action, at: Time)
    requires Keyed(s.policies) && Enabled(s, a) && a.read > at
    ensures Select(Apply(s, a).policies, at) == Select(s.policies, at)
  {
    match a
    case Set(id, rate, read, _) => AppendedSelection(s.policies, id, rate, read, at);
    case Schedule(id, rate, e, _, _) => AppendedSelection(s.policies, id, rate, e, at);
    case Cancel(row, read, _) => CancelledStable(s.policies, row, read, at);
  }

  /** Over every run of set, schedule and cancel, the policy selected for an instant never
      changes again once every later operation reads a clock beyond that instant: no
      cancellation brings an older rate back for a time already passed. */
  lemma PastSelectionStable(run: seq<Timeline>, j: nat, k: nat, at: Time)
    requires Runs.IsRun(Start(), Steps(), run) && j <= k < |run| && ReadAfter(run[j], run[k], at)
    ensures Select(run[k].policies, at) == Select(run[j].policies, at)
  {
    KeyedInductive();
    forall s: Timeline, t: Timeline, u: Timeline | Keyed(t.policies) && Stable(at)(s, t) && Next(t, u) ensures Stable(at)(s, u) {
      var a :| Enabled(t, a) && u == Apply(t, a);
      var n := |s.stamps|;
      assert u.stamps[..n] == t.stamps[..n];
      if ReadAfter(s, u, at) {
        assert u.stamps[|t.stamps|] == a.read;
        forall i | n <= i < |t.stamps| ensures t.stamps[i] > at {
          assert u.stamps[i] == t.stamps[i];
        }
        StepStable(t, a, at);
      }
    }
    Runs.Onward(Start(), Steps(), KeyedTable(), Stable(at), run, j, k);
  }

  // ----- Instants between the read and the commit ------------------------------------------------------------

  ghost predicate SameBefore(ps: seq<Policy>, qs: seq<Policy>, commit: Time) {
    forall at | at < commit :: Select(qs, at) == Select(ps, at)
  }

  /** The operation leaves the selection of every instant before its commit alone. */
  ghost predicate KeepsPast(s: Timeline, a: Action)
    requires Enabled(s, a)
  {
    SameBefore(s.policies, Apply(s, a).policies, a.commit)
  }

  /** A new row whose instant is e, committed at `commit`. */
  lemma AppendKeepsPast(ps: seq<Policy>, id: nat, rateBps: int, e: Time, commit: Time)
    requires Keyed(ps) && FreshId(ps, id)
    ensures SameBefore(ps, Appended(ps, id, rateBps, e), commit) <==> commit <= e || Outranked(ps, id, e)
  {
    forall at | at < commit && (at < e || Outranked(ps, id, e)) ensures Select(Appended(ps, id, rateBps, e), at) == Select(ps, at) {
      AppendedSelection(ps, id, rateBps, e, at);
    }
    AppendedSelection(ps, id, rateBps, e, e);
    SelectIsMaximum(ps, e);
    if e < commit && !Outranked(ps, id, e) {
      assert Select(Appended(ps, id, rateBps, e), e) != Select(ps, e);
    }
  }

  /** Set is stamped with the clock it read, so it rewrites the instants between its read and
      its commit; it leaves them alone exactly when there are none, or when a policy set for the
      very instant it read has drawn a higher id and committed first. */
  lemma SetKeepsPastExactly(s: Timeline, a: Action)
    requires Reachable(s) && Enabled(s, a) && a.Set?
    ensures KeepsPast(s, a) <==> a.read == a.commit || Outranked(s.policies, a.id, a.read)
  {
    ReachableKeyed(s);
    AppendKeepsPast(s.policies, a.id, a.rateBps, a.read, a.commit);
  }

  /** Schedule does so exactly when it commits no later than the scheduled instant, or is
      outranked there. */
  lemma ScheduleKeepsPastExactly(s: Timeline, a: Action)
    requires Reachable(s) && Enabled(s, a) && a.Schedule?
    ensures KeepsPast(s, a) <==> a.commit <= a.effectiveAt || Outranked(s.policies, a.id, a.effectiveAt)
  {
    ReachableKeyed(s);
    AppendKeepsPast(s.policies, a.id, a.rateBps, a.effectiveAt, a.commit);
  }

  /** Cancel may wait for the row lock past the policy's own instant; it then falls back to an
      older rate for instants already passed, unless the cancelled policy was outranked. */
  lemma CancelKeepsPastExactly(s: Timeline, a: Action)
    requires Reachable(s) && Enabled(s, a) && a.Cancel?
    ensures var p := s.policies[a.row];
            KeepsPast(s, a) <==> a.commit <= p.effectiveAt || Outranked(s.policies, p.id, p.effectiveAt)
  {
    ReachableKeyed(s);
    var ps, p := s.policies, s.policies[a.row];
    var e := p.effectiveAt;
    var qs := Cancelled(ps, a.row, a.read);
    if Outranked(ps, p.id, e) {
      forall at ensures Select(qs, at) == Select(ps, at) {
        OutrankedStable(ps, a.row, a.read, at);
      }
    } else {
      forall at | at < e ensures Select(qs, at) == Select(ps, at) {
        CancelledStable(ps, a.row, a.read, at);
      }
      assert Selected(ps, e, Some(a.row));
      SelectedUnique(ps, e, Some(a.row));
      SelectIsMaximum(qs, e);
      assert !Active(qs[a.row], e);
    }
  }

  lemma OutrankedStable(ps: seq<Policy>, row: nat, now: Time, at: Time)
    requires Keyed(ps) && row < |ps| && Outranked(ps, ps[row].id, ps[row].effectiveAt)
    ensures Select(Cancelled(ps, row, now), at) == Select(ps, at)
  {
    var j :| 0 <= j < |ps| && ps[j].effectiveAt == ps[row].effectiveAt && ps[j].cancelledAt.None? && ps[j].id > ps[row].id;
    var qs, r := Cancelled(ps, row, now), Select(ps, at);
    SelectIsMaximum(ps, at);
    assert Active(ps[j], at) <==> ps[row].effectiveAt <= at;
    assert r != Some(row);
    assert Selected(qs, at, r);
    SelectedUnique(qs, at, r);
  }

  lemma Took(s: Timeline, a: Action) returns (t: Timeline)
    requires Reachable(s) && Enabled(s, a)
    ensures Reachable(t) && t == Apply(s, a)
  {
    t := Apply(s, a);
    assert Next(s, t);
    Runs.StepReachable(Start(), Steps(), s, t);
  }

  /** A rate of 5% set at 0 and one of 10% scheduled for 20. */
  lemma TwoRates() returns (s: Timeline)
    ensures Reachable(s) && s.clock == 1.0
    ensures s.policies == [Policy(0, 500, 0.0, None), Policy(1, 1000, 20.0, None)]
  {
    var start := Timeline([], 0.0, []);
    Runs.InitReachable(Start(), Steps(), start);
    var one := Took(start, Set(0, 500, 0.0, 0.0));
    s := Took(one, Schedule(1, 1000, 20.0, 1.0, 1.0));
  }

  lemma TwoSelected()
    ensures Select([Policy(0, 500, 0.0, None), Policy(1, 1000, 20.0, None)], 25.0) == Some(1)
    ensures Select([Policy(0, 500, 0.0, None), Policy(1, 1000, 20.0, Some(10.0))], 25.0) == Some(0)
  {
    SelectedUnique([Policy(0, 500, 0.0, None), Policy(1, 1000, 20.0, None)], 25.0, Some(1));
    SelectedUnique([Policy(0, 500, 0.0, None), Policy(1, 1000, 20.0, Some(10.0))], 25.0, Some(0));
  }

  /** The cancel of the second one read the clock at 10, waited for the lock and committed at 30:
      for the instant 25, already passed, the older rate is selected again. */
  lemma LateCancelReactivates() returns (s: Timeline, a: Action)
    ensures Reachable(s) && Enabled(s, a) && a.Cancel? && 25.0 < a.commit
    ensures |s.policies| == 2 && s.policies[0].rateBps == 500 && s.policies[1].rateBps == 1000
    ensures Select(s.policies, 25.0) == Some(1) && Select(Apply(s, a).policies, 25.0) == Some(0)
  {
    s := TwoRates();
    a := Cancel(1, 10.0, 30.0);
    TwoSelected();
    assert Apply(s, a).policies == [Policy(0, 500, 0.0, None), Policy(1, 1000, 20.0, Some(10.0))];
  }

  // ----- The table --------------------------------------------------------------------------------------------

  datatype PolicyError = BadRate | NotInFuture | Unknown | AlreadyCancelled | AlreadyEffective

  /** The row with this id. */
  function FindRow(ps: seq<Policy>, id: nat): (r: Option<nat>)
    ensures r.Some? ==> r.value < |ps| && ps[r.value].id == id
    ensures r.None? ==> FreshId(ps, id)
  {
    if ps == [] then None
    else
      var n := |ps| - 1;
      if ps[n].id == id then Some(n) else FindRow(ps[..n], id)
  }

  class PolicyTable {
    var policies: seq<Policy>
    var nextId: nat

    ghost predicate Valid()
      reads this
    {
      Keyed(policies) && forall i | 0 <= i < |policies| :: policies[i].id < nextId
    }

    constructor ()
      ensures Valid() && policies == []
    {
      policies, nextId := [], 0;
    }

    /** create_policy: the next id of the sequence is drawn. */
    method Create(rateBps: int, effectiveAt: Time) returns (id: nat)
      requires Valid()
      modifies this
      ensures Valid() && id == old(nextId) && policies == Appended(old(policies), id, rateBps, effectiveAt)
      ensures Select(policies, effectiveAt) == Some(|old(policies)|)
      ensures forall at | at < effectiveAt :: Select(policies, at) == Select(old(policies), at)
    {
      ghost var before := policies;
      id := nextId;
      policies := policies + [Policy(id, rateBps, effectiveAt, None)];
      nextId := nextId + 1;
      forall at ensures at < effectiveAt ==> Select(policies, at) == Select(before, at) {
        AppendedSelection(before, id, rateBps, effectiveAt, at);
      }
      AppendedSelection(before, id, rateBps, effectiveAt, effectiveAt);
    }

    /** fee set: the new rate counts from now on, and no earlier instant changes. */
    method SetRate(rateBps: int, now: Time) returns (error: Option<PolicyError>)
      requires Valid()
      modifies this
      ensures Valid()
      ensures error.Some? <==> !(0 <= rateBps <= 10_000)
      ensures error.Some? ==> policies == old(policies)
      ensures error.None? ==> policies == Appended(old(policies), old(nextId), rateBps, now) && Select(policies, now) == Some(|old(policies)|)
      ensures forall at | at < now :: Select(policies, at) == Select(old(policies), at)
    {
      if !(0 <= rateBps <= Fees.MAX_RATE_BPS) {
        return Some(BadRate);
      }
      var id := Create(rateBps, now);
      return None;
    }

    /** fee schedule: nothing changes before the scheduled instant. */
    method ScheduleRate(rateBps: int, effectiveAt: Time, now: Time) returns (error: Option<PolicyError>)
      requires Valid()
      modifies this
      ensures Valid()
      ensures error.None? <==> 0 <= rateBps <= 10_000 && effectiveAt > now
      ensures error == Some(NotInFuture) <==> effectiveAt <= now
      ensures error.Some? ==> policies == old(policies)
      ensures error.None? ==> policies == Appended(old(policies), old(nextId), rateBps, effectiveAt)
      ensures forall at | at <= now :: Select(policies, at) == Select(old(policies), at)
    {
      if effectiveAt <= now {
        return Some(NotInFuture);
      }
      if !(0 <= rateBps <= Fees.MAX_RATE_BPS) {
        return Some(BadRate);
      }
      var id := Create(rateBps, effectiveAt);
      return None;
    }

    /** cancel_policy: only a policy of the future goes, so the present rate never changes. */
    method CancelPolicy(id: nat, now: Time) returns (error: Option<PolicyError>)
      requires Valid()
      modifies this
      ensures Valid()
      ensures error.None? <==> exists i :: 0 <= i < |old(policies)| && old(policies)[i].id == id
                                 && old(policies)[i].cancelledAt.None? && old(policies)[i].effectiveAt > now
      ensures error == Some(Unknown) <==> forall i | 0 <= i < |old(policies)| :: old(policies)[i].id != id
      ensures error == Some(AlreadyEffective) ==>
                exists i :: 0 <= i < |old(policies)| && old(policies)[i].id == id && old(policies)[i].effectiveAt <= now
      ensures error.Some? ==> policies == old(policies)
      ensures error.None? ==> policies == Cancelled(old(policies), FindRow(old(policies), id).value, now)
      ensures forall at | at <= now :: Select(policies, at) == Select(old(policies), at)
    {
      var found := FindRow(policies, id);
      if found.None? {
        return Some(Unknown);
      }
      var row := found.value;
      if policies[row].cancelledAt.Some? {
        return Some(AlreadyCancelled);
      }
      if policies[row].effectiveAt <= now {
        return Some(AlreadyEffective);
      }
      ghost var before := policies;
      policies := policies[row := policies[row].(cancelledAt := Some(now))];
      forall at | at <= now ensures Select(policies, at) == Select(before, at) {
        CancelledStable(before, row, now, at);
      }
      return None;
    }
  }
}
