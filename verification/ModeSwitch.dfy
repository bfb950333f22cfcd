/** Delivery while the retry mode is changed (app/services/notification.py): every step of a run
    may be taken under another BOT_NOTIFY_RETRY_MODE, as when processes restart one by one. */
module ModeSwitch {
  import opened Common
  import opened Rows
  import opened BotOutcome
  import opened Delivery
  import Lease
  import Runs

  function Under(cfg: Config, mode: Mode): (c: Config) {
    cfg.(mode := mode)
  }

  ghost predicate MixedNext(cfg: Config, f: Flow, g: Flow) {
    exists mode :: Next(Under(cfg, mode), f, g)
  }

  ghost function MixedSteps(cfg: Config): (p: (Flow, Flow) -> bool) {
    (f: Flow, g: Flow) => MixedNext(cfg, f, g)
  }

  /** A run whose i-th step is taken under modes[i]. */
  ghost predicate MixedRun(cfg: Config, run: seq<Flow>, modes: seq<Mode>) {
    && |run| == |modes| + 1 && Init(run[0])
    && forall i | 0 <= i < |modes| :: Next(Under(cfg, modes[i]), run[i], run[i + 1])
  }

  lemma MixedIsRun(cfg: Config, run: seq<Flow>, modes: seq<Mode>)
    requires MixedRun(cfg, run, modes)
    ensures Runs.IsRun(Start(), MixedSteps(cfg), run)
  {
    forall i | 0 <= i < |run| - 1 ensures MixedNext(cfg, run[i], run[i + 1]) {
      assert Next(Under(cfg, modes[i]), run[i], run[i + 1]);
    }
  }

  lemma MixedInductive(cfg: Config)
    requires ValidConfig(cfg)
    ensures Runs.Inductive(Start(), MixedSteps(cfg), Invariant(cfg))
  {
    forall f, g | Inv(cfg, f) && MixedNext(cfg, f, g) ensures Inv(cfg, g) {
      var mode :| Next(Under(cfg, mode), f, g);
      assert Inv(Under(cfg, mode), f);
      InvStep(Under(cfg, mode), f, g);
    }
  }

  lemma MixedInv(cfg: Config, run: seq<Flow>, modes: seq<Mode>, k: nat)
    requires ValidConfig(cfg) && MixedRun(cfg, run, modes) && k < |run|
    ensures Inv(cfg, run[k])
  {
    MixedIsRun(cfg, run, modes);
    MixedInductive(cfg);
    Runs.Always(Start(), MixedSteps(cfg), Invariant(cfg), run, k);
  }

  // ----- What does not depend on the mode ------------------------------------------------------------

  /** However the mode changes, claims stay within max_attempts plus requeues, no attempt is sent
      twice, and each attempt is settled at most once. */
  lemma MixedDelivery(cfg: Config, run: seq<Flow>, modes: seq<Mode>, j: nat, k: nat)
    requires ValidConfig(cfg) && MixedRun(cfg, run, modes) && j <= k < |run|
    ensures run[k].claims <= cfg.maxAttempts + run[k].requeues && |run[k].sends| <= run[k].claims
    ensures Distinct(run[k].settled) && run[j].settled <= run[k].settled
    ensures run[k].verifications <= 1
  {
    MixedInv(cfg, run, modes, k);
    SendsBounded(run[k]);
    MixedIsRun(cfg, run, modes);
    MixedInductive(cfg);
    forall f, g | Inv(cfg, f) && MixedNext(cfg, f, g) ensures Lease.Next(AsLease(f), AsLease(g)) {
      var mode :| Next(Under(cfg, mode), f, g);
      var a :| Enabled(Under(cfg, mode), f, a) && g == Apply(Under(cfg, mode), f, a);
      RefinesLeaseAction(Under(cfg, mode), f, a);
    }
    Runs.MapRun(Start(), MixedSteps(cfg), Invariant(cfg), run, (f: Flow) => AsLease(f), Lease.Start(), Lease.Steps(), LeaseRun(run));
    Lease.SettledAtMostOnce(LeaseRun(run), j, k);
  }

  // ----- From safe mode on ---------------------------------------------------------------------------

  /** Requests the bot may have processed. */
  function RiskyCount(sends: seq<Sent>): (n: nat) {
    if sends == [] then 0
    else RiskyCount(sends[..|sends| - 1]) + if Risky(sends[|sends| - 1]) then 1 else 0
  }

  predicate Held(f: Flow) {
    f.row.status == Pending && f.row.claimedAt.Some?
  }

  /** Live claims that have not sent their request yet. */
  ghost function Unsent(f: Flow): (s: set<nat>) {
    set n | n in f.tokens && f.tokens[n].reply.None?
  }

  /** Those of them the row no longer knows about: slow workers of superseded attempts. */
  ghost function Stray(f: Flow): (s: set<nat>) {
    if Held(f) then Unsent(f) - {f.row.attempts} else Unsent(f)
  }

  ghost predicate RiskyHeld(f: Flow) {
    Held(f) && exists i | 0 <= i < |f.sends| :: f.sends[i].attempt == f.row.attempts && Risky(f.sends[i])
  }

  /** The payment may still yield a risky request under its own claim. */
  ghost predicate Open(f: Flow) {
    f.row.status !in {Accepted, ManualReview} && !RiskyHeld(f)
  }

  /** Risky requests that may still come. */
  ghost function Outstanding(f: Flow): (n: nat) {
    |Stray(f)| + if Open(f) then 1 else 0
  }

  ghost predicate Paid(f: Flow, g: Flow) {
    RiskyCount(g.sends) + Outstanding(g) <= RiskyCount(f.sends) + Outstanding(f)
  }

  lemma SubsetCard(a: set<nat>, b: set<nat>)
    requires a <= b
    ensures |a| <= |b|
  {
    assert b == a + (b - a);
  }

  /** A step without a request: it pays if no stray claim appears and nothing reopens, or a
      claim goes astray as the payment closes. */
  lemma Quiet(f: Flow, g: Flow)
    requires g.sends == f.sends && (Open(g) ==> Open(f))
    requires Stray(g) <= Stray(f)
          || (!Open(g) && Open(f) && Stray(g) <= Stray(f) + {f.row.attempts})
    ensures Paid(f, g)
  {
    if Stray(g) <= Stray(f) {
      SubsetCard(Stray(g), Stray(f));
    } else {
      SubsetCard(Stray(g), Stray(f) + {f.row.attempts});
    }
  }

  /** What a request changes: the log, and that its claim is not unsent any more. */
  lemma SendEffect(cfg: Config, f: Flow, n: nat, reply: Reply)
    requires Inv(cfg, f) && Enabled(cfg, f, Send(n, reply))
    ensures var g := Apply(cfg, f, Send(n, reply));
            && g.row == f.row && g.sends == f.sends + [Sent(n, reply)] && Unsent(g) == Unsent(f) - {n}
            && n in Unsent(f) && (forall i | 0 <= i < |f.sends| :: f.sends[i].attempt != n)
            && RiskyCount(g.sends) == RiskyCount(f.sends) + if Risky(Sent(n, reply)) then 1 else 0
  {
    var g := Apply(cfg, f, Send(n, reply));
    assert g.sends[..|f.sends|] == f.sends;
  }

  lemma SendPays(cfg: Config, f: Flow, n: nat, reply: Reply)
    requires Inv(cfg, f) && Enabled(cfg, f, Send(n, reply))
    ensures Paid(f, Apply(cfg, f, Send(n, reply)))
  {
    var g := Apply(cfg, f, Send(n, reply));
    SendEffect(cfg, f, n, reply);
    assert forall i | 0 <= i < |f.sends| :: g.sends[i] == f.sends[i];
    if Held(f) && n == f.row.attempts {
      assert Stray(g) == Stray(f);
      assert g.sends[|f.sends|] == Sent(n, reply);
    } else {
      assert n in Stray(f) && Stray(g) == Stray(f) - {n};
      assert RiskyHeld(f) ==> RiskyHeld(g);
    }
  }

  lemma RecordPays(cfg: Config, f: Flow, a: Action)
    requires cfg.mode == Safe && Inv(cfg, f) && Enabled(cfg, f, a) && (a.Record? || a.RecordUnconfigured?)
    ensures Paid(f, Apply(cfg, f, a))
  {
    var g, n := Apply(cfg, f, a), a.attempt;
    assert Unsent(g) <= Unsent(f);
    if a.Record? {
      SafeRetriesExactlyUnprocessed(f.tokens[n].reply.value);
      assert n !in Unsent(f);
    }
    if OwnsClaim(f.row, f.tokens[n].worker, n) {
      assert Held(f) && !Held(g) && n !in g.tokens;
      assert Stray(g) <= Stray(f);
    }
    Quiet(f, g);
  }

  lemma ClosePays(cfg: Config, f: Flow, a: Action)
    requires cfg.mode == Safe && Inv(cfg, f) && Enabled(cfg, f, a) && (a.ReleaseStale? || a.ManualAccept?)
    ensures Paid(f, Apply(cfg, f, a))
  {
    var g := Apply(cfg, f, a);
    assert Unsent(g) == Unsent(f) && !Held(g) && !Open(g);
    if RiskyHeld(f) {
      assert f.row.attempts !in Unsent(f);
    }
    Quiet(f, g);
  }

  lemma ClaimPays(cfg: Config, f: Flow, a: Action)
    requires Inv(cfg, f) && Enabled(cfg, f, a) && a.Claim?
    ensures Paid(f, Apply(cfg, f, a))
  {
    var g := Apply(cfg, f, a);
    assert Stray(g) == Stray(f);
    Quiet(f, g);
  }

  lemma OtherPays(cfg: Config, f: Flow, a: Action)
    requires cfg.mode == Safe && Inv(cfg, f) && Enabled(cfg, f, a)
    requires !a.Send? && !a.Record? && !a.RecordUnconfigured? && !a.ReleaseStale? && !a.ManualAccept? && !a.Claim?
    ensures Paid(f, Apply(cfg, f, a))
  {
    var g := Apply(cfg, f, a);
    assert Unsent(g) <= Unsent(f) && g.row.attempts == f.row.attempts && (Held(g) <==> Held(f));
    Quiet(f, g);
  }

  lemma SafeStepPays(cfg: Config, f: Flow, g: Flow)
    requires cfg.mode == Safe && Inv(cfg, f) && Next(cfg, f, g)
    ensures Paid(f, g)
  {
    var a :| Enabled(cfg, f, a) && g == Apply(cfg, f, a);
    match a
    case Send(n, reply) => SendPays(cfg, f, n, reply);
    case Record(_, _, _) => RecordPays(cfg, f, a);
    case RecordUnconfigured(_, _, _) => RecordPays(cfg, f, a);
    case ReleaseStale(_, _) => ClosePays(cfg, f, a);
    case ManualAccept(_) => ClosePays(cfg, f, a);
    case Claim(_, _) => ClaimPays(cfg, f, a);
    case _ => OtherPays(cfg, f, a);
  }

  ghost predicate SafeBetween(modes: seq<Mode>, j: nat, k: nat) {
    k <= |modes| && forall i | j <= i < k :: modes[i] == Safe
  }

  lemma {:induction false} SafeSuffixPays(cfg: Config, run: seq<Flow>, modes: seq<Mode>, j: nat, k: nat)
    requires ValidConfig(cfg) && MixedRun(cfg, run, modes) && j <= k < |run| && SafeBetween(modes, j, k)
    ensures Paid(run[j], run[k])
    decreases k - j
  {
    if j < k {
      SafeSuffixPays(cfg, run, modes, j, k - 1);
      MixedInv(cfg, run, modes, k - 1);
      assert modes[k - 1] == Safe && Next(Under(cfg, modes[k - 1]), run[k - 1], run[k]);
      assert Inv(Under(cfg, Safe), run[k - 1]);
      SafeStepPays(Under(cfg, Safe), run[k - 1], run[k]);
    }
  }

  /** Once the mode is safe for good, whatever it was before: a payment gets at most one further
      request the bot may process for every live claim that has not sent yet, and one more. */
  lemma RiskySendsAfterSwitch(cfg: Config, run: seq<Flow>, modes: seq<Mode>, j: nat, k: nat)
    requires ValidConfig(cfg) && MixedRun(cfg, run, modes) && j <= k < |run| && SafeBetween(modes, j, k)
    ensures RiskyCount(run[k].sends) <= RiskyCount(run[j].sends) + |Stray(run[j])| + if Open(run[j]) then 1 else 0
    ensures RiskyCount(run[k].sends) <= RiskyCount(run[j].sends) + |Unsent(run[j])| + 1
  {
    SafeSuffixPays(cfg, run, modes, j, k);
    SubsetCard(Stray(run[j]), Unsent(run[j]));
  }
}
