/** Rate limiting (app/ratelimit.py): a pruned sliding window against the full history of
    accepted events, and an LRU-bounded store of windows against a map that keeps them all. */
module RateLimit {
  import opened Common

  datatype Rule = Rule(limit: nat, window: Time)

  ghost predicate ValidRule(r: Rule) {
    r.limit > 0 && r.window >= 0.0
  }

  // ----- The specification: a limiter that never forgets ------------------------------------------

  /** The events at or after the cutoff, in order. */
  function Recent(h: seq<Time>, cutoff: Time): (s: seq<Time>) {
    if h == [] then []
    else
      var n := |h| - 1;
      if h[n] >= cutoff then Recent(h[..n], cutoff) + [h[n]] else Recent(h[..n], cutoff)
  }

  /** The accepted events in the window that ends at `t`. */
  function WindowAt(r: Rule, h: seq<Time>, t: Time): (s: seq<Time>) {
    Recent(h, t - r.window)
  }

  /** No room at `now`: the window that ends there already holds `limit` accepted events. */
  predicate Full(r: Rule, h: seq<Time>, now: Time) {
    |WindowAt(r, h, now)| >= r.limit
  }

  function Accepted(r: Rule, h: seq<Time>, now: Time): (g: seq<Time>) {
    if Full(r, h, now) then h else h + [now]
  }

  function RetryAfter(r: Rule, h: seq<Time>, now: Time): (d: Time)
    requires r.limit > 0
  {
    Delay(r, WindowAt(r, h, now), now)
  }

  /** The delay computed from the events of the current window. */
  function Delay(r: Rule, events: seq<Time>, now: Time): (d: Time)
    requires r.limit > 0
    ensures d >= 0.0
  {
    if |events| < r.limit then 0.0
    else
      var d := r.window - (now - events[0]);
      if d > 0.0 then d else 0.0
  }

  ghost predicate Monotone(h: seq<Time>) {
    forall i, j | 0 <= i < j < |h| :: h[i] <= h[j]
  }

  ghost predicate UpTo(h: seq<Time>, now: Time) {
    forall i | 0 <= i < |h| :: h[i] <= now
  }

  /** Accepted events `limit` places apart are more than one window apart. */
  ghost predicate Spaced(r: Rule, h: seq<Time>) {
    forall i | 0 <= i < |h| - r.limit :: h[i + r.limit] - h[i] > r.window
  }

  /** A history the limiter can have at time `now`. */
  ghost predicate History(r: Rule, h: seq<Time>, now: Time) {
    Monotone(h) && UpTo(h, now) && Spaced(r, h)
  }

  /** In a monotone history the recent events are a suffix. */
  lemma {:induction false} RecentSuffix(h: seq<Time>, cutoff: Time) returns (k: nat)
    requires Monotone(h)
    ensures k <= |h| && Recent(h, cutoff) == h[k..]
    ensures forall i | 0 <= i < |h| :: h[i] < cutoff <==> i < k
  {
    if h == [] {
      return 0;
    }
    var n := |h| - 1;
    var front := h[..n];
    k := RecentSuffix(front, cutoff);
    if h[n] < cutoff {
      assert forall i | 0 <= i < n :: front[i] <= h[n];
      assert front[k..] == [] == h[n + 1..];
      k := n + 1;
    } else {
      assert front[k..] + [h[n]] == h[k..];
    }
  }

  /** Accepting an event keeps the history in order. */
  lemma AcceptedKeeps(r: Rule, h: seq<Time>, before: Time, now: Time)
    requires ValidRule(r) && History(r, h, before) && before <= now
    ensures History(r, Accepted(r, h, now), now)
  {
    var k := RecentSuffix(h, now - r.window);
    var g := Accepted(r, h, now);
    if g != h && |h| >= r.limit {
      assert |h| - r.limit < k;
    }
  }

  // ----- How many events an interval can hold -------------------------------------------------------

  ghost function CountIn(h: seq<Time>, lo: Time, hi: Time): (n: nat) {
    if h == [] then 0
    else CountIn(h[..|h| - 1], lo, hi) + if lo <= h[|h| - 1] <= hi then 1 else 0
  }

  lemma {:induction false} CountUpper(h: seq<Time>, lo: Time, hi: Time, k: nat, m: nat)
    requires forall i | 0 <= i < |h| && lo <= h[i] <= hi :: k <= i < m
    ensures CountIn(h, lo, hi) <= if |h| <= k then 0 else if |h| <= m then |h| - k else if m <= k then 0 else m - k
  {
    if h != [] {
      CountUpper(h[..|h| - 1], lo, hi, k, m);
    }
  }

  /** Every closed interval as long as the window holds at most `limit` accepted events. */
  lemma IntervalBounded(r: Rule, h: seq<Time>, now: Time, lo: Time)
    requires ValidRule(r) && History(r, h, now)
    ensures CountIn(h, lo, lo + r.window) <= r.limit
  {
    var k := RecentSuffix(h, lo);
    forall i | 0 <= i < |h| && lo <= h[i] <= lo + r.window ensures k <= i < k + r.limit {
      var e := i - r.limit;
      assert e >= 0 ==> h[e + r.limit] - h[e] > r.window;
    }
    CountUpper(h, lo, lo + r.window, k, k + r.limit);
  }

  /** The window that ends now, said by counting the accepted events in it, its ends included. */
  lemma {:induction false} RecentCount(h: seq<Time>, cutoff: Time, now: Time)
    requires UpTo(h, now)
    ensures |Recent(h, cutoff)| == CountIn(h, cutoff, now)
  {
    if h != [] {
      RecentCount(h[..|h| - 1], cutoff, now);
    }
  }

  /** A call is accepted exactly while the window before it holds fewer than `limit` accepted events. */
  lemma RoomExactly(r: Rule, h: seq<Time>, now: Time)
    requires UpTo(h, now)
    ensures Full(r, h, now) <==> CountIn(h, now - r.window, now) >= r.limit
  {
    RecentCount(h, now - r.window, now);
  }

  // ----- When there is room again -----------------------------------------------------------------------

  /** A full window holds exactly the last `limit` accepted events. */
  lemma FullWindow(r: Rule, h: seq<Time>, now: Time) returns (k: nat)
    requires ValidRule(r) && History(r, h, now) && Full(r, h, now)
    ensures |h| == k + r.limit && Recent(h, now - r.window) == h[k..]
    ensures forall i | 0 <= i < |h| :: h[i] < now - r.window <==> i < k
  {
    k := RecentSuffix(h, now - r.window);
    var e := |h| - 1 - r.limit;
    assert e >= 0 ==> h[e + r.limit] - h[e] > r.window;
  }

  /** After a refusal the announced delay is exact: up to its end there is no room, and after
      it there is, as long as nothing else is accepted. */
  lemma RetryAfterExact(r: Rule, h: seq<Time>, now: Time, t: Time)
    requires ValidRule(r) && History(r, h, now) && Full(r, h, now) && now <= t
    ensures Full(r, h, t) <==> t <= now + RetryAfter(r, h, now)
  {
    var k := FullWindow(r, h, now);
    var oldest := h[k];
    assert Recent(h, now - r.window)[0] == oldest;
    assert now + Delay(r, h[k..], now) == oldest + r.window;
    var l := RecentSuffix(h, t - r.window);
    assert oldest < t - r.window <==> k < l;
  }

  /** The answers to a series of calls. */
  function Answers(r: Rule, h: seq<Time>, times: seq<Time>): (a: (seq<Time>, seq<bool>)) {
    if times == [] then (h, [])
    else
      var n := |times| - 1;
      var (g, oks) := Answers(r, h, times[..n]);
      (Accepted(r, g, times[n]), oks + [!Full(r, g, times[n])])
  }

  /** Whatever is tried until the announced delay is over is refused and changes nothing;
      the first try after it succeeds. */
  lemma {:induction false} RefusedUntilThenAccepted(r: Rule, h: seq<Time>, now: Time, times: seq<Time>, t: Time)
    requires ValidRule(r) && History(r, h, now) && Full(r, h, now)
    requires forall i | 0 <= i < |times| :: now <= times[i] <= now + RetryAfter(r, h, now)
    ensures Answers(r, h, times).0 == h
    ensures |Answers(r, h, times).1| == |times| && forall i | 0 <= i < |times| :: !Answers(r, h, times).1[i]
    ensures t > now + RetryAfter(r, h, now) ==> !Full(r, Answers(r, h, times).0, t)
  {
    if times != [] {
      RefusedUntilThenAccepted(r, h, now, times[..|times| - 1], t);
      RetryAfterExact(r, h, now, times[|times| - 1]);
    }
    if t > now + RetryAfter(r, h, now) {
      RetryAfterExact(r, h, now, t);
    }
  }

  // ----- The deque ------------------------------------------------------------------------------------------

  /** Pruning what an earlier call left gives the same as looking at the whole history. */
  lemma PruneRecent(h: seq<Time>, earlier: Time, cutoff: Time, k: nat)
    requires Monotone(h) && earlier <= cutoff && k <= |Recent(h, earlier)|
    requires forall i | 0 <= i < k :: Recent(h, earlier)[i] < cutoff
    requires k == |Recent(h, earlier)| || Recent(h, earlier)[k] >= cutoff
    ensures Recent(h, earlier)[k..] == Recent(h, cutoff)
  {
    var a := RecentSuffix(h, earlier);
    var b := RecentSuffix(h, cutoff);
    assert Recent(h, earlier) == h[a..];
    assert k > 0 ==> h[a..][k - 1] == h[a + k - 1] && h[a + k - 1] < cutoff;
    assert k < |h| - a ==> h[a..][k] == h[a + k];
    assert a > 0 ==> h[a - 1] < cutoff;
    assert b == a + k;
    assert h[a..][k..] == h[b..];
  }

  /** The loop of _prune: stale events leave at the left end of the deque. */
  method PopStale(r: Rule, events: seq<Time>, now: Time, ghost h: seq<Time>, ghost earlier: Time) returns (rest: seq<Time>)
    requires Monotone(h) && earlier <= now && events == WindowAt(r, h, earlier)
    ensures rest == WindowAt(r, h, now)
  {
    var cutoff := now - r.window;
    var k := 0;
    while k < |events| && events[k] < cutoff
      invariant 0 <= k <= |events|
      invariant forall i | 0 <= i < k :: events[i] < cutoff
    {
      k := k + 1;
    }
    PruneRecent(h, earlier - r.window, cutoff, k);
    rest := events[k..];
  }

  lemma HistoryUpTo(r: Rule, h: seq<Time>, before: Time, now: Time)
    requires History(r, h, before) && before <= now
    ensures History(r, h, now) && UpTo(h, now)
  {
  }

  class SlidingWindowLimiter {
    const rule: Rule
    var events: seq<Time>
    ghost var history: seq<Time>
    ghost var clock: Time

    /** The deque is the accepted history restricted to the window that ended at the last call. */
    ghost predicate Valid()
      reads this
    {
      ValidRule(rule) && History(rule, history, clock) && events == WindowAt(rule, history, clock)
    }

    constructor (rule: Rule, ghost now: Time)
      requires ValidRule(rule)
      ensures Valid() && this.rule == rule && history == [] && clock == now
    {
      this.rule := rule;
      events := [];
      history := [];
      clock := now;
    }

    method Prune(now: Time)
      requires Valid() && clock <= now
      modifies this`events, this`clock
      ensures Valid() && clock == now && history == old(history)
    {
      events := PopStale(rule, events, now, history, clock);
      clock := now;
    }

    /** allow: true exactly when the window that ends now has room, and then recorded. */
    method Allow(now: Time) returns (ok: bool)
      requires Valid() && clock <= now
      modifies this
      ensures Valid() && clock == now
      ensures ok <==> CountIn(old(history), now - rule.window, now) < rule.limit
      ensures history == if ok then old(history) + [now] else old(history)
    {
      HistoryUpTo(rule, history, clock, now);
      RoomExactly(rule, history, now);
      AcceptedKeeps(rule, history, clock, now);
      Prune(now);
      if |events| >= rule.limit {
        return false;
      }
      WindowAppend(rule, history, now);
      events := events + [now];
      history := history + [now];
      return true;
    }

    method RetryAfterNow(now: Time) returns (d: Time)
      requires Valid() && clock <= now
      modifies this`events, this`clock
      ensures Valid() && clock == now && history == old(history)
      ensures d == RetryAfter(rule, history, now)
      ensures CountIn(history, now - rule.window, now) < rule.limit ==> d == 0.0
    {
      HistoryUpTo(rule, history, clock, now);
      RoomExactly(rule, history, now);
      Prune(now);
      d := Delay(rule, events, now);
    }

    method Reset()
      requires Valid()
      modifies this
      ensures Valid() && history == [] && clock == old(clock)
    {
      events := [];
      history := [];
    }
  }

  lemma WindowAppend(r: Rule, h: seq<Time>, now: Time)
    requires r.window >= 0.0
    ensures WindowAt(r, h + [now], now) == WindowAt(r, h, now) + [now]
  {
    assert (h + [now])[..|h|] == h;
  }
}
