/** The operator's attention list (app/adminbot/queries.py): one statement with a window
    count against the two queries it replaces. Both order ties by id. */
module Snapshot {
  import opened Common
  import opened Rows
  import opened Query

  /** An event that put a payment into the notification queue. */
  datatype QueueEntry = QueueEntry(payment: nat, at: Time)

  /** What a statement sees: the payments and the queue-entry events. */
  datatype View = View(rows: seq<Payment>, entries: seq<QueueEntry>)

  datatype Cause = ByReason(reason: Reason) | ByError(error: LastError) | NoCause

  datatype Label = Review(cause: Cause) | StaleNotificationClaim | Waiting(reason: Reason) | OldPending

  datatype StuckEntry = StuckEntry(payment: nat, category: Label)

  datatype Ages = Ages(now: Time, pendingMinutes: int, claimTimeout: Time)

  // ----- Predicates ---------------------------------------------------------------------------------

  predicate OpenReview(p: Payment) {
    p.status == ManualReview && p.reviewResolvedAt.None?
  }

  predicate DeliveryReview(p: Payment) {
    OpenReview(p) && p.reason.Some?
  }

  predicate OtherReview(p: Payment) {
    OpenReview(p) && p.reason.None?
  }

  /** MAX(created_at) over the payment's queue-entry events. */
  function LatestEntry(entries: seq<QueueEntry>, i: nat): (r: Option<Time>)
    ensures r.None? <==> forall k | 0 <= k < |entries| :: entries[k].payment != i
    ensures r.Some? ==> (exists k | 0 <= k < |entries| :: entries[k] == QueueEntry(i, r.value))
                        && forall k | 0 <= k < |entries| && entries[k].payment == i :: entries[k].at <= r.value
  {
    if entries == [] then None
    else
      var n := |entries| - 1;
      var rest := LatestEntry(entries[..n], i);
      assert rest.Some? ==> exists k | 0 <= k < n :: entries[..n][k] == entries[k] == QueueEntry(i, rest.value);
      if entries[n].payment != i then rest
      else if rest.Some? && rest.value >= entries[n].at then rest
      else
        assert entries[n] == QueueEntry(i, entries[n].at);
        Some(entries[n].at)
  }

  /** _notification_age_anchor: the latest entry, else the verification, else the creation. */
  function Anchor(v: View, i: nat): (t: Time)
    requires i < |v.rows|
  {
    var latest := LatestEntry(v.entries, i);
    if latest.Some? then latest.value
    else if v.rows[i].verifiedAt.Some? then v.rows[i].verifiedAt.value
    else v.rows[i].createdAt
  }

  predicate StalePending(v: View, a: Ages, i: nat)
    requires i < |v.rows|
  {
    v.rows[i].status == Pending && Anchor(v, i) <= a.now - 60.0 * a.pendingMinutes as real
  }

  /** Which reviews a list covers: all open ones, or only those caused by delivery. */
  datatype Scope = AllReviews | DeliveryOnly

  predicate InReviewList(scope: Scope, v: View, i: nat) {
    i < |v.rows| && if scope == AllReviews then OpenReview(v.rows[i]) else DeliveryReview(v.rows[i])
  }

  predicate InPendingList(v: View, a: Ages, i: nat) {
    i < |v.rows| && StalePending(v, a, i)
  }

  // ----- Labels ---------------------------------------------------------------------------------------

  predicate Blank(e: LastError) {
    e.GatewayError? && e.text == ""
  }

  function ReviewLabel(p: Payment): (l: Label) {
    Review(if p.reason.Some? then ByReason(p.reason.value)
           else if p.lastError.Some? && !Blank(p.lastError.value) then ByError(p.lastError.value)
           else NoCause)
  }

  function PendingLabel(p: Payment, a: Ages): (l: Label) {
    if p.claimedAt.Some? && p.claimedAt.value <= a.now - a.claimTimeout then StaleNotificationClaim
    else if p.reason.Some? then Waiting(p.reason.value)
    else OldPending
  }

  // ----- The two forms as queries -----------------------------------------------------------------------

  function ReviewsWhere(scope: Scope, v: View): nat -> bool {
    (i: nat) => InReviewList(scope, v, i)
  }

  function PendingWhere(v: View, a: Ages): nat -> bool {
    (i: nat) => InPendingList(v, a, i)
  }

  function EitherWhere(scope: Scope, v: View, a: Ages): nat -> bool {
    (i: nat) => InReviewList(scope, v, i) || InPendingList(v, a, i)
  }

  function ReviewOrder(v: View): (nat, nat) -> bool {
    Order((i: nat) => 0, (i: nat) => if i < |v.rows| then v.rows[i].manualReviewAt else None, true)
  }

  /** No NULLS FIRST here: the anchor is never NULL. */
  function PendingOrder(v: View): (nat, nat) -> bool {
    Order((i: nat) => 0, (i: nat) => if i < |v.rows| then Some(Anchor(v, i)) else None, false)
  }

  function Priority(scope: Scope, v: View, i: nat): (n: int) {
    if InReviewList(scope, v, i) then 0 else 1
  }

  function SortKey(scope: Scope, v: View, i: nat): (t: Option<Time>) {
    if i >= |v.rows| then None
    else if InReviewList(scope, v, i) then v.rows[i].manualReviewAt
    else Some(Anchor(v, i))
  }

  function SnapshotOrder(scope: Scope, v: View): (nat, nat) -> bool {
    Order((i: nat) => Priority(scope, v, i), (i: nat) => SortKey(scope, v, i), true)
  }

  function ReviewIds(scope: Scope, v: View): (ids: seq<nat>) {
    OrderBy(Where(|v.rows|, ReviewsWhere(scope, v)), ReviewOrder(v))
  }

  function PendingIds(v: View, a: Ages): (ids: seq<nat>) {
    OrderBy(Where(|v.rows|, PendingWhere(v, a)), PendingOrder(v))
  }

  function SnapshotIds(scope: Scope, v: View, a: Ages): (ids: seq<nat>) {
    OrderBy(Where(|v.rows|, EitherWhere(scope, v, a)), SnapshotOrder(scope, v))
  }

  // ----- One ordered statement lists both queries in turn -----------------------------------------------

  lemma {:induction false} WhereEither(n: nat, p: nat -> bool, q: nat -> bool, either: nat -> bool)
    requires forall i: nat :: !(p(i) && q(i))
    requires forall i: nat :: either(i) <==> p(i) || q(i)
    ensures multiset(Where(n, either)) == multiset(Where(n, p)) + multiset(Where(n, q))
    ensures |Where(n, either)| == |Where(n, p)| + |Where(n, q)|
  {
    if n > 0 {
      WhereEither(n - 1, p, q, either);
    }
  }

  lemma ListSorted(n: nat, keep: nat -> bool, before: (nat, nat) -> bool, outer: (nat, nat) -> bool)
    requires StrictTotal(before)
    requires forall i: nat, j: nat | keep(i) && keep(j) :: before(i, j) == outer(i, j)
    ensures var ids := OrderBy(Where(n, keep), before);
            && Sorted(ids, outer)
            && (forall k | 0 <= k < |ids| :: ids[k] < n && keep(ids[k]))
  {
    var ids := OrderBy(Where(n, keep), before);
    OrderBySorted(Where(n, keep), before);
    SameElements(ids, Where(n, keep));
    forall k | 0 <= k < |ids| ensures ids[k] < n && keep(ids[k]) {
      assert ids[k] in ids;
    }
  }

  lemma OrdersAgree(scope: Scope, v: View, a: Ages, i: nat, j: nat)
    ensures InReviewList(scope, v, i) && InReviewList(scope, v, j) ==> ReviewOrder(v)(i, j) == SnapshotOrder(scope, v)(i, j)
    ensures InPendingList(v, a, i) && InPendingList(v, a, j) ==> PendingOrder(v)(i, j) == SnapshotOrder(scope, v)(i, j)
    ensures InReviewList(scope, v, i) && InPendingList(v, a, j) ==> SnapshotOrder(scope, v)(i, j)
    ensures !(InReviewList(scope, v, i) && InPendingList(v, a, i))
  {
  }

  /** Two sorted listings, all of the first before all of the second, are one. */
  lemma Concatenated(n: nat, p: nat -> bool, q: nat -> bool, either: nat -> bool,
                     first: (nat, nat) -> bool, second: (nat, nat) -> bool, outer: (nat, nat) -> bool)
    requires StrictTotal(first) && StrictTotal(second) && StrictTotal(outer)
    requires forall i: nat :: !(p(i) && q(i))
    requires forall i: nat :: either(i) <==> p(i) || q(i)
    requires forall i: nat, j: nat | p(i) && p(j) :: first(i, j) == outer(i, j)
    requires forall i: nat, j: nat | q(i) && q(j) :: second(i, j) == outer(i, j)
    requires forall i: nat, j: nat | p(i) && q(j) :: outer(i, j)
    ensures OrderBy(Where(n, either), outer) == OrderBy(Where(n, p), first) + OrderBy(Where(n, q), second)
    ensures |OrderBy(Where(n, either), outer)| == |Where(n, p)| + |Where(n, q)|
  {
    var r, s := OrderBy(Where(n, p), first), OrderBy(Where(n, q), second);
    ListSorted(n, p, first, outer);
    ListSorted(n, q, second, outer);
    WhereEither(n, p, q, either);
    assert Sorted(r + s, outer) by {
      forall i, j | 0 <= i < j < |r + s| ensures outer((r + s)[i], (r + s)[j]) {
        if i < |r| <= j {
          assert p(r[i]) && q(s[j - |r|]);
        }
      }
    }
    OrderBySorted(Where(n, either), outer);
    SortedUnique(OrderBy(Where(n, either), outer), r + s, outer);
    SameElements(OrderBy(Where(n, either), outer), Where(n, either));
  }

  /** The priority column makes one sorted list out of the two. */
  lemma SnapshotConcatenates(scope: Scope, v: View, a: Ages)
    ensures SnapshotIds(scope, v, a) == ReviewIds(scope, v) + PendingIds(v, a)
    ensures |SnapshotIds(scope, v, a)| == |Where(|v.rows|, ReviewsWhere(scope, v))| + |Where(|v.rows|, PendingWhere(v, a))|
  {
    forall i: nat, j: nat
      ensures InReviewList(scope, v, i) && InReviewList(scope, v, j) ==> ReviewOrder(v)(i, j) == SnapshotOrder(scope, v)(i, j)
      ensures InPendingList(v, a, i) && InPendingList(v, a, j) ==> PendingOrder(v)(i, j) == SnapshotOrder(scope, v)(i, j)
      ensures InReviewList(scope, v, i) && InPendingList(v, a, j) ==> SnapshotOrder(scope, v)(i, j)
      ensures !(InReviewList(scope, v, i) && InPendingList(v, a, i))
    {
      OrdersAgree(scope, v, a, i, j);
    }
    Concatenated(|v.rows|, ReviewsWhere(scope, v), PendingWhere(v, a), EitherWhere(scope, v, a),
                 ReviewOrder(v), PendingOrder(v), SnapshotOrder(scope, v));
  }

  // ----- What each form returns ---------------------------------------------------------------------------

  function EntryOf(scope: Scope, v: View, a: Ages, i: nat): (e: StuckEntry) {
    StuckEntry(i, if InReviewList(scope, v, i) then ReviewLabel(v.rows[i])
                  else if i < |v.rows| then PendingLabel(v.rows[i], a)
                  else OldPending)
  }

  function EntriesOf(scope: Scope, v: View, a: Ages, ids: seq<nat>): (es: seq<StuckEntry>)
    ensures |es| == |ids|
  {
    if ids == [] then []
    else EntriesOf(scope, v, a, ids[..|ids| - 1]) + [EntryOf(scope, v, a, ids[|ids| - 1])]
  }

  lemma EntriesNext(scope: Scope, v: View, a: Ages, ids: seq<nat>, k: nat)
    requires k < |ids|
    ensures EntriesOf(scope, v, a, ids[..k + 1]) == EntriesOf(scope, v, a, ids[..k]) + [EntryOf(scope, v, a, ids[k])]
  {
    assert ids[..k + 1][..k] == ids[..k];
  }

  lemma {:induction false} EntriesTake(scope: Scope, v: View, a: Ages, ids: seq<nat>, limit: nat)
    ensures Take(EntriesOf(scope, v, a, ids), limit) == EntriesOf(scope, v, a, Take(ids, limit))
  {
    if |ids| > limit {
      var n := |ids| - 1;
      var front := ids[..n];
      EntriesTake(scope, v, a, front, limit);
      assert Take(front, limit) == Take(ids, limit);
      var all, es := EntriesOf(scope, v, a, ids), EntriesOf(scope, v, a, front);
      assert all == es + [EntryOf(scope, v, a, ids[n])];
      assert all[..limit] == es[..limit];
    }
  }

  /** Truncating each part first and the whole afterwards is truncating the whole. */
  lemma TakeTwice(r: seq<nat>, s: seq<nat>, limit: nat)
    ensures Take(Take(r, limit) + Take(s, limit), limit) == Take(r + s, limit)
  {
  }

  lemma ListedIds(scope: Scope, v: View, a: Ages)
    ensures forall i | i in ReviewIds(scope, v) :: InReviewList(scope, v, i)
    ensures forall i | i in PendingIds(v, a) :: InPendingList(v, a, i) && !InReviewList(scope, v, i)
    ensures forall i | i in SnapshotIds(scope, v, a) :: InReviewList(scope, v, i) || InPendingList(v, a, i)
  {
    SameElements(ReviewIds(scope, v), Where(|v.rows|, ReviewsWhere(scope, v)));
    SameElements(PendingIds(v, a), Where(|v.rows|, PendingWhere(v, a)));
    SameElements(SnapshotIds(scope, v, a), Where(|v.rows|, EitherWhere(scope, v, a)));
  }

  // ----- The same list, told from the rows ----------------------------------------------------------------

  /** Since when payment i has been waiting: the last time it entered the queue, else its
      verification, else its creation. */
  ghost predicate WaitsSince(v: View, i: nat, t: Time)
    requires i < |v.rows|
  {
    if exists k :: 0 <= k < |v.entries| && v.entries[k].payment == i
    then (exists k :: 0 <= k < |v.entries| && v.entries[k] == QueueEntry(i, t))
         && forall k | 0 <= k < |v.entries| && v.entries[k].payment == i :: v.entries[k].at <= t
    else if v.rows[i].verifiedAt.Some? then v.rows[i].verifiedAt == Some(t)
    else t == v.rows[i].createdAt
  }

  ghost predicate Reviewed(scope: Scope, p: Payment) {
    p.status == ManualReview && p.reviewResolvedAt.None? && (scope == DeliveryOnly ==> p.reason.Some?)
  }

  /** The payment needs an operator: an open review, or pending for longer than it should be. */
  ghost predicate Shown(scope: Scope, v: View, a: Ages, i: nat) {
    && i < |v.rows|
    && (Reviewed(scope, v.rows[i])
        || (v.rows[i].status == Pending
            && forall t | WaitsSince(v, i, t) :: a.now - t >= 60.0 * a.pendingMinutes as real))
  }

  /** Reviews first, the longest in review first; then the pending ones, the longest waiting
      first; then by id. */
  ghost predicate ShownBefore(scope: Scope, v: View, i: nat, j: nat)
    requires i < |v.rows| && j < |v.rows|
  {
    var x, y := v.rows[i].manualReviewAt, v.rows[j].manualReviewAt;
    if Reviewed(scope, v.rows[i]) && Reviewed(scope, v.rows[j])
    then (x.None? && y.Some?) || (x.Some? && y.Some? && x.value < y.value) || (x == y && i < j)
    else if Reviewed(scope, v.rows[i]) != Reviewed(scope, v.rows[j]) then Reviewed(scope, v.rows[i])
    else forall s, t | WaitsSince(v, i, s) && WaitsSince(v, j, t) :: s < t || (s == t && i < j)
  }

  /** Why it is shown. */
  ghost predicate Labelled(scope: Scope, a: Ages, p: Payment, l: Label) {
    if Reviewed(scope, p) then
      if p.reason.Some? then l == Review(ByReason(p.reason.value))
      else if p.lastError.None? || p.lastError == Some(GatewayError("")) then l == Review(NoCause)
      else l == Review(ByError(p.lastError.value))
    else if p.claimedAt.Some? && a.now - p.claimedAt.value >= a.claimTimeout then l == StaleNotificationClaim
    else if p.reason.Some? then l == Waiting(p.reason.value)
    else l == OldPending
  }

  lemma AnchorIsWait(v: View, i: nat, t: Time)
    requires i < |v.rows|
    ensures WaitsSince(v, i, t) <==> t == Anchor(v, i)
  {
  }

  lemma ShownIsListed(scope: Scope, v: View, a: Ages, i: nat)
    ensures Shown(scope, v, a, i) <==> InReviewList(scope, v, i) || InPendingList(v, a, i)
  {
    if i < |v.rows| {
      AnchorIsWait(v, i, Anchor(v, i));
      forall t | WaitsSince(v, i, t) ensures t == Anchor(v, i) {
        AnchorIsWait(v, i, t);
      }
    }
  }

  lemma OrderIsShownBefore(scope: Scope, v: View, i: nat, j: nat)
    requires i < |v.rows| && j < |v.rows| && SnapshotOrder(scope, v)(i, j)
    ensures ShownBefore(scope, v, i, j)
  {
    forall t | WaitsSince(v, i, t) ensures t == Anchor(v, i) {
      AnchorIsWait(v, i, t);
    }
    forall t | WaitsSince(v, j, t) ensures t == Anchor(v, j) {
      AnchorIsWait(v, j, t);
    }
  }

  /** The selected ids, from the rows alone. */
  lemma SelectedByRows(scope: Scope, v: View, a: Ages, limit: nat)
    ensures var ids := Take(SnapshotIds(scope, v, a), limit);
      && |ids| <= limit
      && (forall k | 0 <= k < |ids| :: Shown(scope, v, a, ids[k]))
      && (forall k, l | 0 <= k < l < |ids| :: ShownBefore(scope, v, ids[k], ids[l]))
      && (forall i: nat, k | Shown(scope, v, a, i) && i !in ids && 0 <= k < |ids| :: ShownBefore(scope, v, ids[k], i))
      && (|ids| < limit ==> forall i: nat | Shown(scope, v, a, i) :: i in ids)
  {
    var either, before := EitherWhere(scope, v, a), SnapshotOrder(scope, v);
    var ids := Take(SnapshotIds(scope, v, a), limit);
    SelectSpec(|v.rows|, either, before, limit);
    forall i: nat ensures either(i) <==> Shown(scope, v, a, i) {
      ShownIsListed(scope, v, a, i);
    }
    forall k | 0 <= k < |ids| ensures Shown(scope, v, a, ids[k]) {
      assert ids[k] in ids;
    }
    forall k, l | 0 <= k < l < |ids| ensures ShownBefore(scope, v, ids[k], ids[l]) {
      OrderIsShownBefore(scope, v, ids[k], ids[l]);
    }
    forall i: nat, k | Shown(scope, v, a, i) && i !in ids && 0 <= k < |ids| ensures ShownBefore(scope, v, ids[k], i) {
      assert ids[k] in ids;
      OrderIsShownBefore(scope, v, ids[k], i);
    }
  }

  /** Their total number. */
  lemma TotalByRows(scope: Scope, v: View, a: Ages)
    ensures |SnapshotIds(scope, v, a)| == |set i: nat | i < |v.rows| && Shown(scope, v, a, i)|
  {
    var either := EitherWhere(scope, v, a);
    WhereCount(|v.rows|, either);
    SameElements(SnapshotIds(scope, v, a), Where(|v.rows|, either));
    forall i: nat ensures either(i) <==> Shown(scope, v, a, i) {
      ShownIsListed(scope, v, a, i);
    }
    assert Matches(|v.rows|, either) == set i: nat | i < |v.rows| && Shown(scope, v, a, i);
  }

  /** The payment is among the entries. */
  ghost predicate Among(es: seq<StuckEntry>, i: nat) {
    exists k :: 0 <= k < |es| && es[k].payment == i
  }

  /** What the statement returns, from the rows alone: up to `limit` of the payments that need an
      operator, in order, each with its reason, and none left out that comes before one returned. */
  lemma SnapshotByRows(scope: Scope, v: View, a: Ages, limit: nat)
    ensures var es := EntriesOf(scope, v, a, Take(SnapshotIds(scope, v, a), limit));
      && |es| <= limit
      && (forall k | 0 <= k < |es| ::
            Shown(scope, v, a, es[k].payment) && Labelled(scope, a, v.rows[es[k].payment], es[k].category))
      && (forall k, l | 0 <= k < l < |es| :: ShownBefore(scope, v, es[k].payment, es[l].payment))
      && (forall i: nat, k | Shown(scope, v, a, i) && !Among(es, i) && 0 <= k < |es| :: ShownBefore(scope, v, es[k].payment, i))
      && (|es| < limit ==> forall i: nat | Shown(scope, v, a, i) :: Among(es, i))
  {
    var ids := Take(SnapshotIds(scope, v, a), limit);
    var es := EntriesOf(scope, v, a, ids);
    SelectedByRows(scope, v, a, limit);
    forall k | 0 <= k < |es|
      ensures es[k].payment == ids[k] && Labelled(scope, a, v.rows[ids[k]], es[k].category)
    {
      EntryAt(scope, v, a, ids, k);
      assert Shown(scope, v, a, ids[k]);
    }
    forall i: nat | i in ids ensures Among(es, i) {
      var k :| 0 <= k < |ids| && ids[k] == i;
      assert es[k].payment == i;
    }
  }

  lemma {:induction false} EntryAt(scope: Scope, v: View, a: Ages, ids: seq<nat>, k: nat)
    requires k < |ids|
    ensures EntriesOf(scope, v, a, ids)[k] == EntryOf(scope, v, a, ids[k])
  {
    if k < |ids| - 1 {
      EntryAt(scope, v, a, ids[..|ids| - 1], k);
    }
  }

  /** open_attention_snapshot and, with the narrower scope, bot_delivery_snapshot: total and
      entries come from one statement. */
  method OneStatement(scope: Scope, v: View, a: Ages, limit: nat) returns (total: nat, entries: seq<StuckEntry>)
    ensures entries == EntriesOf(scope, v, a, Take(SnapshotIds(scope, v, a), limit))
    ensures total == if entries == [] then 0 else |SnapshotIds(scope, v, a)|
  {
    var all := SnapshotIds(scope, v, a);
    ListedIds(scope, v, a);
    var ids := Take(all, limit);
    total := if ids == [] then 0 else |all|;
    entries := LabelRows(scope, v, a, ids);
  }

  /** The loop that turns rows into entries. */
  method LabelRows(scope: Scope, v: View, a: Ages, ids: seq<nat>) returns (entries: seq<StuckEntry>)
    requires forall k | 0 <= k < |ids| :: InReviewList(scope, v, ids[k]) || InPendingList(v, a, ids[k])
    ensures entries == EntriesOf(scope, v, a, ids)
  {
    entries := [];
    for k := 0 to |ids|
      invariant entries == EntriesOf(scope, v, a, ids[..k])
    {
      EntriesNext(scope, v, a, ids, k);
      var p := v.rows[ids[k]];
      if Priority(scope, v, ids[k]) == 0 {
        entries := entries + [StuckEntry(ids[k], ReviewLabel(p))];
      } else if p.claimedAt.Some? && p.claimedAt.value <= a.now - a.claimTimeout {
        entries := entries + [StuckEntry(ids[k], StaleNotificationClaim)];
      } else {
        entries := entries + [StuckEntry(ids[k], if p.reason.Some? then Waiting(p.reason.value) else OldPending)];
      }
    }
    assert ids[..|ids|] == ids;
  }

  /** stuck_payments: two queries, each bounded, concatenated and cut once more. It returns
      what one ordered statement over both returns, in the same order, with the same
      categories, for every table, instant and limit. */
  method TwoQueries(v: View, a: Ages, limit: nat) returns (entries: seq<StuckEntry>)
    ensures entries == EntriesOf(AllReviews, v, a, Take(SnapshotIds(AllReviews, v, a), limit))
  {
    var reviews, pending := Take(ReviewIds(AllReviews, v), limit), Take(PendingIds(v, a), limit);
    ListedIds(AllReviews, v, a);
    entries := LabelBoth(v, a, reviews, pending);
    TruncatedTwice(v, a, limit);
    EntriesTake(AllReviews, v, a, reviews + pending, limit);
    entries := Take(entries, limit);
  }

  method LabelBoth(v: View, a: Ages, reviews: seq<nat>, pending: seq<nat>) returns (entries: seq<StuckEntry>)
    requires forall k | 0 <= k < |reviews| :: InReviewList(AllReviews, v, reviews[k])
    requires forall k | 0 <= k < |pending| :: InPendingList(v, a, pending[k]) && !InReviewList(AllReviews, v, pending[k])
    ensures entries == EntriesOf(AllReviews, v, a, reviews + pending)
  {
    ghost var both := reviews + pending;
    entries := [];
    for k := 0 to |reviews|
      invariant entries == EntriesOf(AllReviews, v, a, both[..k])
    {
      EntriesNext(AllReviews, v, a, both, k);
      entries := entries + [StuckEntry(reviews[k], ReviewLabel(v.rows[reviews[k]]))];
    }
    for k := 0 to |pending|
      invariant entries == EntriesOf(AllReviews, v, a, both[..|reviews| + k])
    {
      EntriesNext(AllReviews, v, a, both, |reviews| + k);
      entries := entries + [StuckEntry(pending[k], PendingLabel(v.rows[pending[k]], a))];
    }
    assert both[..|both|] == both;
  }

  lemma TruncatedTwice(v: View, a: Ages, limit: nat)
    ensures Take(Take(ReviewIds(AllReviews, v), limit) + Take(PendingIds(v, a), limit), limit)
            == Take(SnapshotIds(AllReviews, v, a), limit)
  {
    SnapshotConcatenates(AllReviews, v, a);
    TakeTwice(ReviewIds(AllReviews, v), PendingIds(v, a), limit);
  }

  /** The number of rows a list is about. */
  ghost function Matching(scope: Scope, v: View, a: Ages): (n: nat) {
    |Where(|v.rows|, EitherWhere(scope, v, a))|
  }

  /** The total is the unbounded count, with one exception: a limit of zero returns no row to
      read it from. */
  lemma TotalExact(scope: Scope, v: View, a: Ages, limit: nat)
    ensures var total := if Take(SnapshotIds(scope, v, a), limit) == [] then 0 else |SnapshotIds(scope, v, a)|;
            total == Matching(scope, v, a) <==> limit > 0 || Matching(scope, v, a) == 0
  {
    SameElements(SnapshotIds(scope, v, a), Where(|v.rows|, EitherWhere(scope, v, a)));
  }

  /** Open reviews fall into exactly one of the two review lists, so the delivery list and the
      count of the other reviews add up to the attention list. */
  lemma ReviewPartition(v: View, a: Ages)
    ensures Matching(AllReviews, v, a)
            == Matching(DeliveryOnly, v, a) + |Where(|v.rows|, (i: nat) => i < |v.rows| && OtherReview(v.rows[i]))|
  {
    WhereEither(|v.rows|, EitherWhere(DeliveryOnly, v, a), (i: nat) => i < |v.rows| && OtherReview(v.rows[i]),
                EitherWhere(AllReviews, v, a));
  }
}
