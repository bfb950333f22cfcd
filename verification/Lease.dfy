/** The claim/settle protocol shared by payment notification and the
    administrator alert outbox, stripped of everything else.

    A row is idle, held by one worker, or closed. Taking the lease increments the
    attempt counter; giving it back appends that attempt to the settlement log. */
module Lease {
  import opened Common
  import Runs

  datatype Phase = Idle | Held(owner: string) | Closed

  datatype State = State(phase: Phase, attempts: nat, settled: seq<nat>)

  ghost predicate Acquire(s: State, t: State) {
    && s.phase.Idle?
    && t.phase.Held?
    && t.attempts == s.attempts + 1
    && t.settled == s.settled
  }

  ghost predicate Settle(s: State, t: State) {
    && s.phase.Held?
    && !t.phase.Held?
    && t.attempts == s.attempts
    && t.settled == s.settled + [s.attempts]
  }

  ghost predicate Close(s: State, t: State) {
    s.phase.Idle? && t == s.(phase := Closed)
  }

  ghost predicate Reopen(s: State, t: State) {
    s.phase.Closed? && t == s.(phase := Idle)
  }

  /** One step of a lease that may never be reopened once closed. */
  ghost predicate OneWayNext(s: State, t: State) {
    s == t || Acquire(s, t) || Settle(s, t) || Close(s, t)
  }

  /** One step of a lease that an operator may put back into the queue. */
  ghost predicate Next(s: State, t: State) {
    OneWayNext(s, t) || Reopen(s, t)
  }

  ghost predicate Init(s: State) {
    !s.phase.Held? && s.attempts == 0 && s.settled == []
  }

  ghost function Start(): (p: State -> bool) {
    s => Init(s)
  }

  ghost function Steps(): (p: (State, State) -> bool) {
    (s, t) => Next(s, t)
  }

  ghost predicate IsRun(run: seq<State>) {
    Runs.IsRun(Start(), Steps(), run)
  }

  /** What every reachable lease satisfies: the log lists finished attempts in
      increasing order, and the attempt being held is not among them. */
  ghost predicate Inv(s: State) {
    && Ascending(s.settled)
    && (forall i | 0 <= i < |s.settled| :: 1 <= s.settled[i] <= s.attempts)
    && (s.phase.Held? ==> s.attempts >= 1 && s.attempts !in s.settled)
  }

  lemma InvStep(s: State, t: State)
    requires Inv(s) && Next(s, t)
    ensures Inv(t)
    ensures s.settled <= t.settled
  {
    if Settle(s, t) {
      forall i | 0 <= i < |s.settled| ensures s.settled[i] < s.attempts {
        assert s.settled[i] in s.settled;
      }
    }
  }

  /** Over every run, each attempt is settled at most once, settlements are never
      withdrawn, and no attempt is settled while it is still held. */
  lemma SettledAtMostOnce(run: seq<State>, j: nat, k: nat)
    requires IsRun(run) && j <= k < |run|
    ensures run[j].settled <= run[k].settled
    ensures Distinct(run[k].settled)
    ensures run[k].phase.Held? ==> run[k].attempts !in run[k].settled
  {
    var inv := (s: State) => Inv(s);
    var rel := (s: State, t: State) => s.settled <= t.settled;
    forall s, t | inv(s) && Steps()(s, t) ensures inv(t) {
      InvStep(s, t);
    }
    forall s, t, u | inv(t) && rel(s, t) && Steps()(t, u) ensures rel(s, u) {
      InvStep(t, u);
    }
    Runs.Always(Start(), Steps(), inv, run, k);
    Runs.Onward(Start(), Steps(), inv, rel, run, j, k);
  }
}
