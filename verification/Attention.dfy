/** Attention resolution (app/services/attention.py): operators close stale link failures,
    a later failure of the same order reopens the item. Everything is decided by the order
    of two event types in the append-only trail; an event's id is its position. */
module Attention {
  import opened Common
  import opened Rows
  import Delivery
  import Runs

  datatype Resolution = StaleGetLinkFailure | StaleIncompleteCreation

  /** A payment with its attention columns. */
  datatype Item = Item(flow: Delivery.Flow, resolvedAt: Option<Time>, resolution: Option<Resolution>)

  const GRACE_SECONDS: Time := 60.0

  predicate ValidFor(r: Resolution, s: Status) {
    match r
    case StaleGetLinkFailure => s == GetLinkFailed
    case StaleIncompleteCreation => s == Created
  }

  datatype Refusal =
    | AlreadyResolved
    | IsVerified
    | HasReference
    | UnderManualReview
    | NotificationAttempted
    | LinkWasIssued
    | StatusNotEligible
    | NotYetStale
    | ResolutionNotValid
    | EmptyNote

  // ----- The event trail ------------------------------------------------------------------------------

  /** The highest event id of a kind for a payment. */
  function Latest(events: seq<Event>, kind: EventKind, i: nat): (r: Option<nat>)
    ensures r.Some? ==> r.value < |events| && events[r.value] == Event(kind, Some(i))
                        && forall k | r.value < k < |events| :: events[k] != Event(kind, Some(i))
    ensures r.None? ==> forall k | 0 <= k < |events| :: events[k] != Event(kind, Some(i))
  {
    if events == [] then None
    else
      var n := |events| - 1;
      if events[n] == Event(kind, Some(i)) then Some(n) else Latest(events[..n], kind, i)
  }

  /** A failure was recorded after the latest resolution. */
  predicate FailedSince(events: seq<Event>, i: nat) {
    var failure, resolution := Latest(events, LinkFailed, i), Latest(events, AttentionResolved, i);
    failure.Some? && (resolution.None? || failure.value > resolution.value)
  }

  /** unresolved_attention_condition. */
  predicate Unresolved(events: seq<Event>, item: Item, i: nat) {
    item.resolvedAt.None? || FailedSince(events, i)
  }

  /** resolution_superseded_in_db. */
  predicate Superseded(events: seq<Event>, item: Item, i: nat) {
    if item.resolvedAt.None? then false
    else
      var failure := Latest(events, LinkFailed, i);
      if failure.None? then false
      else
        var resolution := Latest(events, AttentionResolved, i);
        resolution.None? || failure.value > resolution.value
  }

  /** unexpected_status_conditions: the worklist. */
  predicate Listed(events: seq<Event>, item: Item, i: nat, now: Time) {
    && item.flow.row.status in {Created, GetLinkFailed, GatewayVerified}
    && item.flow.row.createdAt <= now - GRACE_SECONDS
    && Unresolved(events, item, i)
  }

  /** refuse_reason. */
  function RefuseReason(item: Item, now: Time, resolution: Option<Resolution>, superseded: bool): (r: Option<Refusal>) {
    var p := item.flow.row;
    if item.resolvedAt.Some? && !superseded then Some(AlreadyResolved)
    else if p.verifiedAt.Some? then Some(IsVerified)
    else if p.referenceId.Some? then Some(HasReference)
    else if p.manualReviewAt.Some? then Some(UnderManualReview)
    else if p.attempts > 0 then Some(NotificationAttempted)
    else if p.redirectUrl.Some? then Some(LinkWasIssued)
    else if p.status !in {Created, GetLinkFailed} then Some(StatusNotEligible)
    else if p.createdAt > now - GRACE_SECONDS then Some(NotYetStale)
    else if resolution.Some? && !ValidFor(resolution.value, p.status) then Some(ResolutionNotValid)
    else None
  }

  // ----- The state machine ------------------------------------------------------------------------------

  datatype World = World(items: seq<Item>, events: seq<Event>)

  datatype Action =
    | Insert(row: Payment)
    | LinkFails(payment: nat, message: string, payer: Payer)
    | Elsewhere(payment: nat, act: Delivery.Action, noted: seq<Event>)
    | Resolve(payment: nat, resolution: Resolution, now: Time)

  ghost predicate Silent(events: seq<Event>) {
    forall k | 0 <= k < |events| :: events[k].kind != LinkFailed && events[k].kind != AttentionResolved
  }

  ghost predicate Enabled(cfg: Delivery.Config, w: World, a: Action) {
    match a
    case Insert(row) => Fresh(row)
    case LinkFails(i, message, payer) =>
      i < |w.items| && Delivery.Enabled(cfg, w.items[i].flow, Delivery.FailLink(message, payer))
    case Elsewhere(i, act, noted) =>
      i < |w.items| && !act.FailLink? && Delivery.Enabled(cfg, w.items[i].flow, act) && Silent(noted)
    case Resolve(i, _, _) => i < |w.items|
  }

  function Stamped(item: Item, resolution: Resolution, now: Time): (r: Item) {
    item.(resolvedAt := Some(now), resolution := Some(resolution))
  }

  /** resolve_attention with a usable note: refused, or four columns and one event. */
  function Resolved(w: World, i: nat, resolution: Resolution, now: Time): (v: World)
    requires i < |w.items|
  {
    var item := w.items[i];
    if RefuseReason(item, now, Some(resolution), Superseded(w.events, item, i)).Some? then w
    else World(w.items[i := Stamped(item, resolution, now)], w.events + [Event(AttentionResolved, Some(i))])
  }

  ghost function Apply(cfg: Delivery.Config, w: World, a: Action): (v: World)
    requires Enabled(cfg, w, a)
  {
    match a
    case Insert(row) =>
      World(w.items + [Item(Delivery.Flow(row, map[], [], [], 0, 0, 0), None, None)],
            w.events + [Event(PaymentCreated, Some(|w.items|))])
    case LinkFails(i, message, payer) =>
      World(w.items[i := w.items[i].(flow := Delivery.Apply(cfg, w.items[i].flow, Delivery.FailLink(message, payer)))],
            w.events + [Event(LinkFailed, Some(i))])
    case Elsewhere(i, act, noted) =>
      World(w.items[i := w.items[i].(flow := Delivery.Apply(cfg, w.items[i].flow, act))], w.events + noted)
    case Resolve(i, resolution, now) => Resolved(w, i, resolution, now)
  }

  ghost predicate Next(cfg: Delivery.Config, w: World, v: World) {
    exists a :: Enabled(cfg, w, a) && v == Apply(cfg, w, a)
  }

  ghost function Start(): (p: World -> bool) {
    (w: World) => w == World([], [])
  }

  ghost function Steps(cfg: Delivery.Config): (p: (World, World) -> bool) {
    (w: World, v: World) => Next(cfg, w, v)
  }

  ghost predicate Reachable(cfg: Delivery.Config, w: World) {
    Runs.Reachable(Start(), Steps(cfg), w)
  }

  // ----- The invariant ------------------------------------------------------------------------------------

  /** A row that still has no link carries nothing financial. */
  ghost predicate RowOk(p: Payment) {
    && Delivery.RowInv(p)
    && (p.manualReviewAt.Some? ==> p.status !in {Created, LinkCreated, GetLinkFailed})
    && (p.status == ManualReview ==> p.manualReviewAt.Some?)
  }

  /** The column is set exactly when the trail has a resolution. */
  ghost predicate ItemOk(events: seq<Event>, item: Item, i: nat) {
    RowOk(item.flow.row) && (item.resolvedAt.Some? <==> Latest(events, AttentionResolved, i).Some?)
  }

  /** Between two resolutions of one payment lies a link failure of it. */
  ghost predicate Alternating(events: seq<Event>) {
    forall i: nat, a, b | 0 <= a < b < |events| && events[a] == events[b] == Event(AttentionResolved, Some(i)) ::
      exists c | a < c < b :: events[c] == Event(LinkFailed, Some(i))
  }

  /** Events are about payments that exist. */
  ghost predicate Known(w: World) {
    forall k | 0 <= k < |w.events| && w.events[k].kind == AttentionResolved && w.events[k].payment.Some? ::
      w.events[k].payment.value < |w.items|
  }

  ghost predicate Inv(w: World) {
    && (forall i | 0 <= i < |w.items| :: ItemOk(w.events, w.items[i], i))
    && Alternating(w.events)
    && Known(w)
  }

  lemma RowOkStep(cfg: Delivery.Config, f: Delivery.Flow, a: Delivery.Action)
    requires RowOk(f.row) && Delivery.Enabled(cfg, f, a)
    ensures RowOk(Delivery.Apply(cfg, f, a).row)
  {
    Delivery.RowInvStep(cfg, f, a);
  }

  /** Appended events of other kinds change nothing about a kind. */
  lemma LatestAppend(events: seq<Event>, more: seq<Event>, kind: EventKind, i: nat)
    requires forall k | 0 <= k < |more| :: more[k] != Event(kind, Some(i))
    ensures Latest(events + more, kind, i) == Latest(events, kind, i)
  {
    var r := Latest(events + more, kind, i);
    var s := Latest(events, kind, i);
    if s.Some? {
      assert (events + more)[s.value] == events[s.value];
    }
    if r.Some? && r.value < |events| {
      assert (events + more)[r.value] == events[r.value];
    }
  }

  lemma LatestHere(events: seq<Event>, kind: EventKind, i: nat)
    ensures Latest(events + [Event(kind, Some(i))], kind, i) == Some(|events|)
  {
  }

  /** Events that are not resolutions keep the log alternating. */
  lemma AlternatingAppend(events: seq<Event>, more: seq<Event>)
    requires Alternating(events) && forall k | 0 <= k < |more| :: more[k].kind != AttentionResolved
    ensures Alternating(events + more)
  {
    var all := events + more;
    forall b | |events| <= b < |all| ensures all[b].kind != AttentionResolved {
      assert all[b] == more[b - |events|];
    }
    forall i: nat, a, b | 0 <= a < b < |all| && all[a] == all[b] == Event(AttentionResolved, Some(i))
      ensures exists c | a < c < b :: all[c] == Event(LinkFailed, Some(i))
    {
      assert events[a] == events[b] == Event(AttentionResolved, Some(i));
      var c :| a < c < b && events[c] == Event(LinkFailed, Some(i));
      assert all[c] == Event(LinkFailed, Some(i));
    }
  }

  /** A resolution is appended only when none was recorded or a failure came after it. */
  lemma AlternatingResolve(events: seq<Event>, i: nat)
    requires Alternating(events) && (Latest(events, AttentionResolved, i).None? || FailedSince(events, i))
    ensures Alternating(events + [Event(AttentionResolved, Some(i))])
  {
    var all := events + [Event(AttentionResolved, Some(i))];
    forall n: nat, a, b | 0 <= a < b < |all| && all[a] == all[b] == Event(AttentionResolved, Some(n))
      ensures exists c | a < c < b :: all[c] == Event(LinkFailed, Some(n))
    {
      assert events[a] == Event(AttentionResolved, Some(n));
      var c: nat;
      if b < |events| {
        c := FailureBetween(events, n, a, b);
      } else {
        assert all[b] == Event(AttentionResolved, Some(i));
        c := FailureAfter(events, i, a);
      }
      assert all[c] == Event(LinkFailed, Some(n));
    }
  }

  lemma FailureBetween(events: seq<Event>, i: nat, a: nat, b: nat) returns (c: nat)
    requires Alternating(events) && a < b < |events| && events[a] == events[b] == Event(AttentionResolved, Some(i))
    ensures a < c < b && events[c] == Event(LinkFailed, Some(i))
  {
    c :| a < c < b && events[c] == Event(LinkFailed, Some(i));
  }

  lemma FailureAfter(events: seq<Event>, i: nat, a: nat) returns (c: nat)
    requires a < |events| && events[a] == Event(AttentionResolved, Some(i))
    requires Latest(events, AttentionResolved, i).None? || FailedSince(events, i)
    ensures a < c < |events| && events[c] == Event(LinkFailed, Some(i))
  {
    c := Latest(events, LinkFailed, i).value;
  }

  lemma ItemKept(events: seq<Event>, more: seq<Event>, item: Item, i: nat)
    requires ItemOk(events, item, i) && forall k | 0 <= k < |more| :: more[k] != Event(AttentionResolved, Some(i))
    ensures ItemOk(events + more, item, i)
  {
    LatestAppend(events, more, AttentionResolved, i);
  }

  lemma ResolveKeeps(w: World, i: nat, resolution: Resolution, now: Time)
    requires Inv(w) && i < |w.items|
    ensures Inv(Resolved(w, i, resolution, now))
  {
    var v, item := Resolved(w, i, resolution, now), w.items[i];
    if v != w {
      var more := [Event(AttentionResolved, Some(i))];
      assert ItemOk(w.events, item, i);
      AlternatingResolve(w.events, i);
      LatestHere(w.events, AttentionResolved, i);
      forall n | 0 <= n < |v.items| ensures ItemOk(v.events, v.items[n], n) {
        assert ItemOk(w.events, w.items[n], n);
        if n != i {
          ItemKept(w.events, more, w.items[n], n);
        }
      }
    }
  }

  /** A step that records no resolution, on one row or a new one. */
  lemma OtherKeeps(w: World, i: nat, item: Item, more: seq<Event>)
    requires Inv(w) && i < |w.items| && RowOk(item.flow.row) && item.resolvedAt == w.items[i].resolvedAt
    requires forall k | 0 <= k < |more| :: more[k].kind != AttentionResolved
    ensures Inv(World(w.items[i := item], w.events + more))
  {
    var items := w.items[i := item];
    AlternatingAppend(w.events, more);
    forall n | 0 <= n < |items| ensures ItemOk(w.events + more, items[n], n) {
      assert ItemOk(w.events, w.items[n], n);
      ItemKept(w.events, more, items[n], n);
    }
  }

  lemma InsertKeeps(w: World, row: Payment)
    requires Inv(w) && Fresh(row)
    ensures Inv(World(w.items + [Item(Delivery.Flow(row, map[], [], [], 0, 0, 0), None, None)],
                      w.events + [Event(PaymentCreated, Some(|w.items|))]))
  {
    var n, more := |w.items|, [Event(PaymentCreated, Some(|w.items|))];
    var items := w.items + [Item(Delivery.Flow(row, map[], [], [], 0, 0, 0), None, None)];
    AlternatingAppend(w.events, more);
    assert forall k | 0 <= k < |w.events| :: w.events[k] != Event(AttentionResolved, Some(n));
    assert Latest(w.events, AttentionResolved, n).None?;
    forall i | 0 <= i < |items| ensures ItemOk(w.events + more, items[i], i) {
      if i < n {
        assert ItemOk(w.events, w.items[i], i);
      }
      ItemKept(w.events, more, items[i], i);
    }
  }

  lemma InvStep(cfg: Delivery.Config, w: World, a: Action)
    requires Inv(w) && Enabled(cfg, w, a)
    ensures Inv(Apply(cfg, w, a))
  {
    match a
    case Insert(row) => InsertKeeps(w, row);
    case LinkFails(i, message, payer) =>
      assert ItemOk(w.events, w.items[i], i);
      RowOkStep(cfg, w.items[i].flow, Delivery.FailLink(message, payer));
      OtherKeeps(w, i, w.items[i].(flow := Delivery.Apply(cfg, w.items[i].flow, Delivery.FailLink(message, payer))),
                 [Event(LinkFailed, Some(i))]);
    case Elsewhere(i, act, noted) =>
      assert ItemOk(w.events, w.items[i], i);
      RowOkStep(cfg, w.items[i].flow, act);
      OtherKeeps(w, i, w.items[i].(flow := Delivery.Apply(cfg, w.items[i].flow, act)), noted);
    case Resolve(i, resolution, now) => ResolveKeeps(w, i, resolution, now);
  }

  ghost function Invariant(): (p: World -> bool) {
    w => Inv(w)
  }

  lemma InvInductive(cfg: Delivery.Config)
    ensures Runs.Inductive(Start(), Steps(cfg), Invariant())
  {
    forall w, v | Inv(w) && Next(cfg, w, v) ensures Inv(v) {
      var a :| Enabled(cfg, w, a) && v == Apply(cfg, w, a);
      InvStep(cfg, w, a);
    }
  }

  lemma ReachableInv(cfg: Delivery.Config, w: World)
    requires Reachable(cfg, w)
    ensures Inv(w)
  {
    InvInductive(cfg);
    Runs.ReachableInv(Start(), Steps(cfg), Invariant(), w);
  }

  // ----- What operators can rely on -----------------------------------------------------------------------

  /** "Already resolved" is refused exactly for the items the worklist no longer shows. */
  lemma AlreadyResolvedExactly(w: World, i: nat, now: Time, resolution: Option<Resolution>)
    requires i < |w.items|
    ensures RefuseReason(w.items[i], now, resolution, Superseded(w.events, w.items[i], i)) == Some(AlreadyResolved)
            <==> !Unresolved(w.events, w.items[i], i)
  {
  }

  /** A payment that has become financially meaningful is refused for that reason, never for
      its status, age or resolution code. */
  lemma FinancialReasonFirst(item: Item, now: Time, resolution: Option<Resolution>, superseded: bool)
    requires var p := item.flow.row;
             p.verifiedAt.Some? || p.referenceId.Some? || p.manualReviewAt.Some? || p.attempts > 0 || p.redirectUrl.Some?
    ensures RefuseReason(item, now, resolution, superseded).Some?
    ensures RefuseReason(item, now, resolution, superseded).value
            in {AlreadyResolved, IsVerified, HasReference, UnderManualReview, NotificationAttempted, LinkWasIssued}
    ensures RefuseReason(item, now, resolution, superseded) == Some(AlreadyResolved) <==> item.resolvedAt.Some? && !superseded
  {
  }

  /** The trail closes the item: a resolution with no link failure after it. */
  ghost predicate Closed(events: seq<Event>, i: nat) {
    exists r | 0 <= r < |events| && events[r] == Event(AttentionResolved, Some(i)) ::
      forall k | r < k < |events| :: events[k] != Event(LinkFailed, Some(i))
  }

  /** In every reachable state an item is closed exactly when a resolution was recorded and
      no failure after it, whatever the column says. */
  lemma ClosedByTheTrail(cfg: Delivery.Config, w: World, i: nat)
    requires Reachable(cfg, w) && i < |w.items|
    ensures !Unresolved(w.events, w.items[i], i) <==> Closed(w.events, i)
  {
    ReachableInv(cfg, w);
    assert ItemOk(w.events, w.items[i], i);
    var latest := Latest(w.events, AttentionResolved, i);
    var failure := Latest(w.events, LinkFailed, i);
    if latest.Some? && !FailedSince(w.events, i) {
      assert w.events[latest.value] == Event(AttentionResolved, Some(i));
      forall k | latest.value < k < |w.events| ensures w.events[k] != Event(LinkFailed, Some(i)) {
      }
    }
  }

  /** The resolution code that fits what happened to the order. */
  ghost predicate Fits(r: Resolution, s: Status) {
    (r == StaleGetLinkFailure && s == GetLinkFailed) || (r == StaleIncompleteCreation && s == Created)
  }

  /** In every reachable state: the worklist shows exactly the orders without a link, at least a
      minute old, that the trail leaves open. */
  lemma ListedExactly(cfg: Delivery.Config, w: World, i: nat, now: Time)
    requires Reachable(cfg, w) && i < |w.items|
    ensures Listed(w.events, w.items[i], i, now) <==>
              && w.items[i].flow.row.status in {Created, GetLinkFailed}
              && now - w.items[i].flow.row.createdAt >= 60.0
              && !Closed(w.events, i)
  {
    ReachableInv(cfg, w);
    assert ItemOk(w.events, w.items[i], i);
    ClosedByTheTrail(cfg, w, i);
  }

  /** In every reachable state an operator may resolve exactly what the worklist shows, with the
      one code that fits its status: the financial guards never hide anything from the list, and
      the grace period is the same. */
  lemma ResolvableExactlyListed(cfg: Delivery.Config, w: World, i: nat, resolution: Resolution, now: Time)
    requires Reachable(cfg, w) && i < |w.items|
    ensures RefuseReason(w.items[i], now, Some(resolution), Superseded(w.events, w.items[i], i)).None?
            <==> Listed(w.events, w.items[i], i, now) && Fits(resolution, w.items[i].flow.row.status)
  {
    ReachableInv(cfg, w);
    assert ItemOk(w.events, w.items[i], i);
  }

  /** Why an item is refused, in every reachable state: closed by the trail, meaningful in itself,
      not a failed link, too young, or resolved with the code of the other status. */
  lemma RefusedExactly(cfg: Delivery.Config, w: World, i: nat, resolution: Resolution, now: Time)
    requires Reachable(cfg, w) && i < |w.items|
    ensures var p := w.items[i].flow.row;
            var r := RefuseReason(w.items[i], now, Some(resolution), Superseded(w.events, w.items[i], i));
      && (r == Some(AlreadyResolved) <==> Closed(w.events, i))
      && (r == Some(IsVerified) <==> !Closed(w.events, i) && p.verifiedAt.Some?)
      && (r == Some(UnderManualReview) <==> !Closed(w.events, i) && p.verifiedAt.None? && p.manualReviewAt.Some?)
      && (r == Some(LinkWasIssued) <==>
            !Closed(w.events, i) && p.verifiedAt.None? && p.manualReviewAt.None? && p.redirectUrl.Some?)
      && (r == Some(NotYetStale) <==>
            !Closed(w.events, i) && p.status in {Created, GetLinkFailed} && now - p.createdAt < 60.0)
      && (r == Some(ResolutionNotValid) <==> Listed(w.events, w.items[i], i, now) && !Fits(resolution, p.status))
      && r != Some(HasReference) && r != Some(NotificationAttempted) && r != Some(StatusNotEligible) && r != Some(EmptyNote)
  {
    ReachableInv(cfg, w);
    assert ItemOk(w.events, w.items[i], i);
    ClosedByTheTrail(cfg, w, i);
  }

  /** Whatever anybody does: a recorded resolution fits the status its payment has at that step. */
  lemma RecordedFits(cfg: Delivery.Config, w: World, a: Action, i: nat)
    requires Reachable(cfg, w) && Enabled(cfg, w, a) && i < |w.items|
    ensures var v := Apply(cfg, w, a);
      && |v.items| >= |w.items|
      && (v.items[i].resolution != w.items[i].resolution || v.items[i].resolvedAt != w.items[i].resolvedAt ==>
            && v.items[i].resolvedAt.Some? && v.items[i].resolution.Some?
            && Fits(v.items[i].resolution.value, w.items[i].flow.row.status) && v.items[i].flow == w.items[i].flow)
  {
    if a.Resolve? {
      ResolvableExactlyListed(cfg, w, a.payment, a.resolution, a.now);
    }
  }

  /** Over every run, between two recorded resolutions of a payment lies one of its link
      failures. */
  lemma OneResolutionPerFailure(cfg: Delivery.Config, w: World, i: nat, a: nat, b: nat)
    requires Reachable(cfg, w) && a < b < |w.events|
    requires w.events[a] == w.events[b] == Event(AttentionResolved, Some(i))
    ensures exists c | a < c < b :: w.events[c] == Event(LinkFailed, Some(i))
  {
    ReachableInv(cfg, w);
  }

  /** A failed retry reopens the item, whatever was resolved before. */
  lemma FailureReopens(cfg: Delivery.Config, w: World, a: Action)
    requires Enabled(cfg, w, a) && a.LinkFails?
    ensures var v := Apply(cfg, w, a); Unresolved(v.events, v.items[a.payment], a.payment)
  {
    var more := [Event(LinkFailed, Some(a.payment))];
    LatestHere(w.events, LinkFailed, a.payment);
    LatestAppend(w.events, more, AttentionResolved, a.payment);
  }

  /** The trail only grows, and closing item i takes a resolution of i. */
  ghost function OpenUntilResolved(i: nat): (p: (World, World) -> bool) {
    (w: World, v: World) =>
      && |w.items| <= |v.items| && w.events <= v.events
      && (i < |w.items| && Unresolved(w.events, w.items[i], i) && !Unresolved(v.events, v.items[i], i) ==>
            exists k | |w.events| <= k < |v.events| :: v.events[k] == Event(AttentionResolved, Some(i)))
  }

  lemma LatestGrows(events: seq<Event>, more: seq<Event>, kind: EventKind, i: nat)
    requires Latest(events, kind, i).Some?
    ensures Latest(events + more, kind, i).Some? && Latest(events + more, kind, i).value >= Latest(events, kind, i).value
  {
    var k := Latest(events, kind, i).value;
    assert (events + more)[k] == Event(kind, Some(i));
  }

  /** Without a resolution of its own an open item stays open. */
  lemma OpenAppend(events: seq<Event>, more: seq<Event>, item: Item, later: Item, i: nat)
    requires Unresolved(events, item, i) && later.resolvedAt == item.resolvedAt
    requires forall k | 0 <= k < |more| :: more[k] != Event(AttentionResolved, Some(i))
    ensures Unresolved(events + more, later, i)
  {
    if item.resolvedAt.Some? {
      LatestAppend(events, more, AttentionResolved, i);
      LatestGrows(events, more, LinkFailed, i);
    }
  }

  lemma StaysOpen(cfg: Delivery.Config, w: World, a: Action, i: nat)
    requires Enabled(cfg, w, a) && i < |w.items| && Unresolved(w.events, w.items[i], i)
    ensures var v := Apply(cfg, w, a);
            |w.items| <= |v.items| && w.events <= v.events
            && (Unresolved(v.events, v.items[i], i) || (|v.events| > |w.events| && v.events[|w.events|] == Event(AttentionResolved, Some(i))))
  {
    var v := Apply(cfg, w, a);
    match a
    case Insert(_) => OpenAppend(w.events, [Event(PaymentCreated, Some(|w.items|))], w.items[i], v.items[i], i);
    case LinkFails(n, _, _) => OpenAppend(w.events, [Event(LinkFailed, Some(n))], w.items[i], v.items[i], i);
    case Elsewhere(_, _, noted) => OpenAppend(w.events, noted, w.items[i], v.items[i], i);
    case Resolve(n, _, _) =>
      if n != i && v != w {
        OpenAppend(w.events, [Event(AttentionResolved, Some(n))], w.items[i], v.items[i], i);
      }
  }

  /** Over every run an open item stays on the list until an operator resolves it again. */
  lemma OpenUntilResolvedAgain(cfg: Delivery.Config, run: seq<World>, j: nat, k: nat, i: nat)
    requires Runs.IsRun(Start(), Steps(cfg), run) && j <= k < |run|
    requires i < |run[j].items| && Unresolved(run[j].events, run[j].items[i], i)
    ensures |run[j].items| <= |run[k].items|
    ensures Unresolved(run[k].events, run[k].items[i], i)
            || exists e | |run[j].events| <= e < |run[k].events| :: run[k].events[e] == Event(AttentionResolved, Some(i))
  {
    InvInductive(cfg);
    forall u, w, v | Inv(w) && OpenUntilResolved(i)(u, w) && Next(cfg, w, v) ensures OpenUntilResolved(i)(u, v) {
      var a :| Enabled(cfg, w, a) && v == Apply(cfg, w, a);
      OneMoreStep(cfg, u, w, a, i);
    }
    Runs.Onward(Start(), Steps(cfg), Invariant(), OpenUntilResolved(i), run, j, k);
  }

  lemma OneMoreStep(cfg: Delivery.Config, u: World, w: World, a: Action, i: nat)
    requires OpenUntilResolved(i)(u, w) && Enabled(cfg, w, a)
    ensures OpenUntilResolved(i)(u, Apply(cfg, w, a))
  {
    var v := Apply(cfg, w, a);
    assert |w.items| <= |v.items| && w.events <= v.events;
    if i < |u.items| && Unresolved(u.events, u.items[i], i) && !Unresolved(v.events, v.items[i], i) {
      if Unresolved(w.events, w.items[i], i) {
        StaysOpen(cfg, w, a, i);
        assert v.events[|w.events|] == Event(AttentionResolved, Some(i));
      } else {
        var k :| |u.events| <= k < |w.events| && w.events[k] == Event(AttentionResolved, Some(i));
        assert v.events[k] == Event(AttentionResolved, Some(i));
      }
    }
  }

  /** Resolving writes the attention columns of one payment that carries nothing financial,
      and nothing else: status, amounts, payer and delivery are untouched everywhere. */
  lemma ResolutionIsInert(cfg: Delivery.Config, w: World, i: nat, resolution: Resolution, now: Time, n: nat)
    requires Reachable(cfg, w) && i < |w.items| && n < |w.items|
    ensures var v := Resolved(w, i, resolution, now);
      && |v.items| == |w.items| && v.items[n].flow == w.items[n].flow
      && (v.items[n] != w.items[n] ==>
            && n == i && Listed(w.events, w.items[i], i, now)
            && w.items[i].flow.row.verifiedAt.None? && w.items[i].flow.row.redirectUrl.None? && w.items[i].flow.row.attempts == 0
            && !Unresolved(v.events, v.items[i], i))
  {
    var v := Resolved(w, i, resolution, now);
    if v.items[n] != w.items[n] {
      ReachableInv(cfg, w);
      assert ItemOk(w.events, w.items[i], i);
      LatestHere(w.events, AttentionResolved, i);
      LatestAppend(w.events, [Event(AttentionResolved, Some(i))], LinkFailed, i);
    }
  }

  // ----- The operator's note ------------------------------------------------------------------------------

  const NOTE_MAX_LENGTH := 500
  const ACTOR_MAX_LENGTH := 128

  function StripLeft(s: string, isSpace: char -> bool): (r: string)
    ensures r == "" <==> forall k | 0 <= k < |s| :: isSpace(s[k])
    ensures r != "" ==> !isSpace(r[0])
  {
    if s != "" && isSpace(s[0]) then StripLeft(s[1..], isSpace) else s
  }

  function StripRight(s: string, isSpace: char -> bool): (r: string)
    ensures r <= s
    ensures r == "" <==> forall k | 0 <= k < |s| :: isSpace(s[k])
  {
    if s != "" && isSpace(s[|s| - 1]) then StripRight(s[..|s| - 1], isSpace) else s
  }

  function Strip(s: string, isSpace: char -> bool): (r: string) {
    StripRight(StripLeft(s, isSpace), isSpace)
  }

  /** What is stored: stripped first, then cut. */
  function Safe(s: string, max: nat, isSpace: char -> bool): (r: string) {
    var t := Strip(s, isSpace);
    if |t| <= max then t else t[..max]
  }

  lemma {:induction false} LeftStripped(s: string, isSpace: char -> bool) returns (lead: string)
    ensures s == lead + StripLeft(s, isSpace) && forall k | 0 <= k < |lead| :: isSpace(lead[k])
  {
    lead := "";
    if s != "" && isSpace(s[0]) {
      var rest := StripLeft(s[1..], isSpace);
      var more := LeftStripped(s[1..], isSpace);
      lead := [s[0]] + more;
      assert [s[0]] + (more + rest) == lead + rest;
    }
  }

  lemma {:induction false} RightStripped(s: string, isSpace: char -> bool) returns (trail: string)
    ensures s == StripRight(s, isSpace) + trail && forall k | 0 <= k < |trail| :: isSpace(trail[k])
    ensures var r := StripRight(s, isSpace); r != "" ==> !isSpace(r[|r| - 1])
  {
    if s != "" && isSpace(s[|s| - 1]) {
      var n := |s| - 1;
      var more := RightStripped(s[..n], isSpace);
      trail := more + [s[n]];
      assert s == s[..n] + [s[n]];
    } else {
      trail := "";
    }
  }

  /** Stripping takes off the spaces at both ends and nothing else. */
  lemma StripExactly(s: string, isSpace: char -> bool) returns (lead: string, trail: string)
    ensures s == lead + Strip(s, isSpace) + trail
    ensures (forall k | 0 <= k < |lead| :: isSpace(lead[k])) && (forall k | 0 <= k < |trail| :: isSpace(trail[k]))
    ensures var r := Strip(s, isSpace); r != "" ==> !isSpace(r[0]) && !isSpace(r[|r| - 1])
  {
    lead := LeftStripped(s, isSpace);
    trail := RightStripped(StripLeft(s, isSpace), isSpace);
  }

  /** A stored note is blank only if the given one was: cutting cannot leave mere spaces. */
  lemma SafeNotBlank(s: string, max: nat, isSpace: char -> bool)
    requires max > 0
    ensures Strip(s, isSpace) == "" <==> forall k | 0 <= k < |s| :: isSpace(s[k])
    ensures Safe(s, max, isSpace) == "" <==> Strip(s, isSpace) == ""
    ensures Safe(s, max, isSpace) != "" ==> !isSpace(Safe(s, max, isSpace)[0])
    ensures Safe(s, max, isSpace) <= Strip(s, isSpace)
    ensures |Safe(s, max, isSpace)| == Min(max, |Strip(s, isSpace)|)
  {
    var left := StripLeft(s, isSpace);
    if left != "" {
      assert !isSpace(left[0]);
    }
  }

  // ----- The operator's transaction -------------------------------------------------------------------------

  /** An accepted resolution: what it was about and what it leaves. */
  lemma ResolveSpec(cfg: Delivery.Config, w: World, i: nat, resolution: Resolution, now: Time)
    requires Reachable(cfg, w) && i < |w.items|
    requires RefuseReason(w.items[i], now, Some(resolution), Superseded(w.events, w.items[i], i)).None?
    ensures Listed(w.events, w.items[i], i, now)
    ensures var v := Resolved(w, i, resolution, now); Reachable(cfg, v) && !Unresolved(v.events, v.items[i], i)
  {
    ResolvableExactlyListed(cfg, w, i, resolution, now);
    assert Listed(w.events, w.items[i], i, now);
    Runs.StepReachable(Start(), Steps(cfg), w, Apply(cfg, w, Resolve(i, resolution, now)));
    LatestHere(w.events, AttentionResolved, i);
    LatestAppend(w.events, [Event(AttentionResolved, Some(i))], LinkFailed, i);
  }

  datatype Note = Note(actor: string, text: string)

  class AttentionDesk {
    const cfg: Delivery.Config
    const isSpace: char -> bool
    var items: seq<Item>
    var events: seq<Event>
    var notes: map<nat, Note>

    ghost predicate Valid()
      reads this
    {
      Reachable(cfg, World(items, events))
    }

    constructor (cfg: Delivery.Config, isSpace: char -> bool)
      ensures Valid() && this.cfg == cfg && items == [] && events == [] && notes == map[]
    {
      this.cfg := cfg;
      this.isSpace := isSpace;
      items, events, notes := [], [], map[];
      Runs.InitReachable(Start(), Steps(cfg), World([], []));
    }

    /** The text has a character that is not a space. */
    ghost predicate Says(text: string) {
      exists k :: 0 <= k < |text| && !isSpace(text[k])
    }

    /** resolve_attention: refused with a reason and no change, or recorded with one event
        and a note that says something. */
    method ResolveAttention(i: nat, resolution: Resolution, note: string, actor: string, now: Time) returns (refusal: Option<Refusal>)
      requires Valid() && i < |items|
      modifies this
      ensures Valid() && i < |items|
      ensures refusal == Some(EmptyNote) <==> !Says(note) || !Says(actor)
      ensures refusal.None? <==>
                && Says(note) && Says(actor) && Listed(old(events), old(items)[i], i, now)
                && var status := old(items)[i].flow.row.status;
                ((status == GetLinkFailed && resolution == StaleGetLinkFailure)
                 || (status == Created && resolution == StaleIncompleteCreation))
      ensures refusal == Some(AlreadyResolved) <==> Says(note) && Says(actor) && Closed(old(events), i)
      ensures refusal == Some(ResolutionNotValid) <==>
                && Says(note) && Says(actor) && Listed(old(events), old(items)[i], i, now)
                && !Fits(resolution, old(items)[i].flow.row.status)
      ensures refusal.Some? ==> items == old(items) && events == old(events) && notes == old(notes)
      ensures refusal.None? ==>
                && events == old(events) + [Event(AttentionResolved, Some(i))]
                && items == old(items)[i := old(items)[i].(resolvedAt := Some(now), resolution := Some(resolution))]
                && !Unresolved(events, items[i], i)
                && i in notes && notes == old(notes)[i := notes[i]]
                && notes[i].text <= Strip(note, isSpace) && |notes[i].text| == Min(500, |Strip(note, isSpace)|)
                && notes[i].actor <= Strip(actor, isSpace) && |notes[i].actor| == Min(128, |Strip(actor, isSpace)|)
                && notes[i].text != "" && !isSpace(notes[i].text[0])
    {
      SafeNotBlank(note, NOTE_MAX_LENGTH, isSpace);
      SafeNotBlank(actor, ACTOR_MAX_LENGTH, isSpace);
      if Strip(note, isSpace) == "" || Strip(actor, isSpace) == "" {
        return Some(EmptyNote);
      }
      var item := items[i];
      ghost var w := World(items, events);
      var superseded := Superseded(events, item, i);
      refusal := RefuseReason(item, now, Some(resolution), superseded);
      ResolvableExactlyListed(cfg, w, i, resolution, now);
      RefusedExactly(cfg, w, i, resolution, now);
      if refusal.Some? {
        return;
      }
      ResolveSpec(cfg, w, i, resolution, now);
      items := items[i := item.(resolvedAt := Some(now), resolution := Some(resolution))];
      notes := notes[i := Note(Safe(actor, ACTOR_MAX_LENGTH, isSpace), Safe(note, NOTE_MAX_LENGTH, isSpace))];
      events := events + [Event(AttentionResolved, Some(i))];
    }
  }
}
