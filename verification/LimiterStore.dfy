/** The LRU-bounded store of limiters (app/ratelimit.py), against a specification that has
    no order list: an unbounded map of full histories and the bare sequence of keys used. */
module LimiterStore {
  import opened Common
  import opened RateLimit

  /** The key of a bucket: a client address. */
  datatype Client = Client(address: string)

  ghost function Elems(s: seq<Client>): (r: set<Client>) {
    set k | k in s
  }

  // ----- Recency, said without the ordered dictionary -----------------------------------------------

  /** The distinct keys used since the last use of `key`. */
  ghost function Since(uses: seq<Client>, key: Client): (s: set<Client>) {
    if uses == [] || uses[|uses| - 1] == key then {}
    else Since(uses[..|uses| - 1], key) + {uses[|uses| - 1]}
  }

  /** The key was used, and fewer than `capacity` distinct other keys since then. */
  ghost predicate Remembered(uses: seq<Client>, key: Client, capacity: nat) {
    key in uses && |Since(uses, key)| < capacity
  }

  function Without(s: seq<Client>, key: Client): (r: seq<Client>)
    ensures forall k :: k in r <==> k in s && k != key
    ensures |r| <= |s|
  {
    if s == [] then []
    else
      var n := |s| - 1;
      assert s == s[..n] + [s[n]];
      if s[n] == key then Without(s[..n], key) else Without(s[..n], key) + [s[n]]
  }

  /** All keys ever used, by last use. */
  ghost function Recency(uses: seq<Client>): (r: seq<Client>)
    ensures forall k :: k in r <==> k in uses
  {
    if uses == [] then []
    else
      var n := |uses| - 1;
      assert uses == uses[..n] + [uses[n]];
      Without(Recency(uses[..n]), uses[n]) + [uses[n]]
  }

  ghost function LastN(s: seq<Client>, n: nat): (r: seq<Client>)
    ensures |r| <= n && |r| <= |s|
  {
    if |s| <= n then s else s[|s| - n..]
  }

  lemma {:induction false} WithoutAbsent(s: seq<Client>, key: Client)
    requires key !in s
    ensures Without(s, key) == s
  {
    if s != [] {
      var n := |s| - 1;
      assert s == s[..n] + [s[n]];
      WithoutAbsent(s[..n], key);
    }
  }

  lemma {:induction false} WithoutAt(s: seq<Client>, i: nat)
    requires Distinct(s) && i < |s|
    ensures Without(s, s[i]) == s[..i] + s[i + 1..]
  {
    var n := |s| - 1;
    if i == n {
      assert s[n] !in s[..n];
      WithoutAbsent(s[..n], s[n]);
    } else {
      WithoutAt(s[..n], i);
      assert s[..n][..i] + s[..n][i + 1..] + [s[n]] == s[..i] + s[i + 1..];
    }
  }

  lemma {:induction false} WithoutDistinct(s: seq<Client>, key: Client)
    requires Distinct(s)
    ensures Distinct(Without(s, key))
  {
    if i :| 0 <= i < |s| && s[i] == key {
      WithoutAt(s, i);
    } else {
      WithoutAbsent(s, key);
    }
  }

  lemma DistinctAppend(s: seq<Client>, key: Client)
    requires Distinct(s) && key !in s
    ensures Distinct(s + [key])
  {
  }

  lemma {:induction false} RecencyDistinct(uses: seq<Client>)
    ensures Distinct(Recency(uses))
  {
    if uses != [] {
      var n := |uses| - 1;
      RecencyDistinct(uses[..n]);
      var rest := Without(Recency(uses[..n]), uses[n]);
      WithoutDistinct(Recency(uses[..n]), uses[n]);
      DistinctAppend(rest, uses[n]);
    }
  }

  /** What is listed after the last place of a key. */
  ghost function After(s: seq<Client>, key: Client): (r: seq<Client>)
    ensures |r| <= |s|
  {
    if s == [] || s[|s| - 1] == key then [] else After(s[..|s| - 1], key) + [s[|s| - 1]]
  }

  lemma {:induction false} AfterWithout(s: seq<Client>, last: Client, key: Client)
    requires key != last
    ensures After(Without(s, last), key) == Without(After(s, key), last)
  {
    if s != [] {
      var n := |s| - 1;
      AfterWithout(s[..n], last, key);
      if s[n] != key {
        assert (After(s[..n], key) + [s[n]])[..|After(s[..n], key)|] == After(s[..n], key);
        if s[n] != last {
          var rest := Without(s[..n], last);
          assert (rest + [s[n]])[..|rest|] == rest;
        }
      } else {
        var rest := Without(s[..n], last);
        assert (rest + [s[n]])[|rest|] == key;
      }
    }
  }

  /** The keys listed after a key are those used since its last use. */
  lemma {:induction false} RecencySince(uses: seq<Client>, key: Client)
    requires key in uses
    ensures Since(uses, key) == Elems(After(Recency(uses), key))
  {
    var n := |uses| - 1;
    var last, rest := uses[n], Without(Recency(uses[..n]), uses[n]);
    assert uses == uses[..n] + [last];
    assert (rest + [last])[..|rest|] == rest;
    if last != key {
      RecencySince(uses[..n], key);
      AfterWithout(Recency(uses[..n]), last, key);
      ElemsMoved(After(Recency(uses[..n]), key), last);
    }
  }

  lemma ElemsMoved(s: seq<Client>, last: Client)
    ensures Elems(Without(s, last) + [last]) == Elems(s) + {last}
  {
  }

  /** Where a key stands. */
  lemma {:induction false} AfterPlace(s: seq<Client>, key: Client)
    requires key in s
    ensures |After(s, key)| < |s| && s[|s| - 1 - |After(s, key)|] == key
    ensures After(s, key) == s[|s| - |After(s, key)|..]
  {
    var n := |s| - 1;
    assert s == s[..n] + [s[n]];
    if s[n] != key {
      AfterPlace(s[..n], key);
    }
  }

  lemma SinceSize(uses: seq<Client>, key: Client)
    requires key in uses
    ensures |Since(uses, key)| == |After(Recency(uses), key)|
  {
    var r := Recency(uses);
    RecencySince(uses, key);
    RecencyDistinct(uses);
    AfterPlace(r, key);
    SetOfDistinct(After(r, key));
  }

  lemma {:induction false} SetOfDistinct(s: seq<Client>)
    requires Distinct(s)
    ensures |Elems(s)| == |s|
  {
    if s != [] {
      var n := |s| - 1;
      SetOfDistinct(s[..n]);
      assert s == s[..n] + [s[n]];
      assert Elems(s) == Elems(s[..n]) + {s[n]};
      assert s[n] !in s[..n];
    }
  }

  /** What an LRU list of `capacity` keys holds: exactly the remembered ones. */
  lemma LastNRemembered(uses: seq<Client>, key: Client, capacity: nat)
    ensures key in LastN(Recency(uses), capacity) <==> Remembered(uses, key, capacity)
  {
    var r := Recency(uses);
    if key in uses {
      RecencyDistinct(uses);
      SinceSize(uses, key);
      AfterPlace(r, key);
      TailHolds(r, |r| - 1 - |After(r, key)|, |r| - |LastN(r, capacity)|);
    } else {
      assert key !in r;
    }
  }

  lemma TailHolds(r: seq<Client>, i: nat, from: nat)
    requires Distinct(r) && i < |r| && from <= |r|
    ensures r[i] in r[from..] <==> from <= i
  {
    if from <= i {
      assert r[from..][i - from] == r[i];
    } else {
      forall j | 0 <= j < |r[from..]| ensures r[from..][j] != r[i] {
        assert r[from..][j] == r[from + j];
      }
    }
  }

  // ----- The ordered dictionary -----------------------------------------------------------------------

  /** What one use does to the order list: move to the end, or evict the head when full. */
  function Touched(order: seq<Client>, key: Client, capacity: nat): (r: seq<Client>)
    requires capacity > 0
  {
    if key in order then Without(order, key) + [key]
    else if |order| >= capacity then order[1..] + [key]
    else order + [key]
  }

  lemma {:induction false} WithoutAppend(a: seq<Client>, b: seq<Client>, key: Client)
    ensures Without(a + b, key) == Without(a, key) + Without(b, key)
  {
    if b == [] {
      assert a + b == a;
    } else {
      var n := |b| - 1;
      WithoutAppend(a, b[..n], key);
      assert (a + b)[..|a| + n] == a + b[..n];
    }
  }

  lemma WithoutSize(s: seq<Client>, key: Client)
    requires Distinct(s) && key in s
    ensures |Without(s, key)| == |s| - 1
  {
    var i :| 0 <= i < |s| && s[i] == key;
    WithoutAt(s, i);
  }

  lemma LastNAppend(front: seq<Client>, tail: seq<Client>, n: nat)
    requires |tail| == n || (|tail| <= n && front == [])
    ensures LastN(front + tail, n) == tail
  {
    assert (front + tail)[|front|..] == tail;
  }

  /** A key inside the bounded list moves to its end. */
  lemma TouchedInside(head: seq<Client>, order: seq<Client>, key: Client, capacity: nat)
    requires key !in head && key in order && Distinct(order)
    requires |order| == capacity || (|order| <= capacity && head == [])
    ensures LastN(Without(head + order, key) + [key], capacity) == Without(order, key) + [key]
  {
    var moved := Without(order, key) + [key];
    WithoutAppend(head, order, key);
    WithoutAbsent(head, key);
    WithoutSize(order, key);
    assert Without(head + order, key) + [key] == head + moved;
    LastNAppend(head, moved, capacity);
  }

  /** A key that fell out of the bounded list pushes out its head. */
  lemma TouchedOutside(head: seq<Client>, order: seq<Client>, key: Client, capacity: nat)
    requires key in head && key !in order && Distinct(head) && |order| == capacity > 0
    ensures LastN(Without(head + order, key) + [key], capacity) == order[1..] + [key]
  {
    WithoutAppend(head, order, key);
    WithoutAbsent(order, key);
    var less := Without(head, key);
    Pushed(less, order, key);
    LastNAppend(less + [order[0]], order[1..] + [key], capacity);
  }

  lemma Pushed(head: seq<Client>, order: seq<Client>, key: Client)
    requires order != []
    ensures head + order + [key] == (head + [order[0]]) + (order[1..] + [key])
  {
  }

  /** A key never seen before is appended, pushing out the head of a full list. */
  lemma TouchedNew(head: seq<Client>, order: seq<Client>, key: Client, capacity: nat)
    requires capacity > 0 && (|order| == capacity || (|order| < capacity && head == []))
    ensures LastN(head + order + [key], capacity) == if |order| >= capacity then order[1..] + [key] else order + [key]
  {
    if |order| == capacity {
      Pushed(head, order, key);
      LastNAppend(head + [order[0]], order[1..] + [key], capacity);
    } else {
      assert head + order + [key] == head + (order + [key]);
      LastNAppend(head, order + [key], capacity);
    }
  }

  /** Splitting a list of distinct keys: none is on both sides. */
  lemma Halves(r: seq<Client>, from: nat, key: Client)
    requires Distinct(r) && from <= |r|
    ensures r == r[..from] + r[from..] && Distinct(r[..from]) && Distinct(r[from..])
    ensures !(key in r[..from] && key in r[from..])
    ensures key in r <==> key in r[..from] || key in r[from..]
  {
    if key in r[..from] {
      var i :| 0 <= i < from && r[i] == key;
      TailHolds(r, i, from);
    }
    assert r == r[..from] + r[from..];
  }

  /** The bounded list stays the tail of the unbounded one. */
  lemma TouchedIsTail(r: seq<Client>, key: Client, capacity: nat)
    requires Distinct(r) && capacity > 0
    ensures Touched(LastN(r, capacity), key, capacity) == LastN(Without(r, key) + [key], capacity)
  {
    var order := LastN(r, capacity);
    var from := |r| - |order|;
    var head := r[..from];
    assert order == r[from..];
    Halves(r, from, key);
    if key in order {
      TouchedInside(head, order, key, capacity);
    } else if key in head {
      TouchedOutside(head, order, key, capacity);
    } else {
      WithoutAbsent(r, key);
      TouchedNew(head, order, key, capacity);
    }
  }

  lemma TouchedIsLast(uses: seq<Client>, key: Client, capacity: nat)
    requires capacity > 0
    ensures Touched(LastN(Recency(uses), capacity), key, capacity) == LastN(Recency(uses + [key]), capacity)
  {
    RecencyDistinct(uses);
    assert (uses + [key])[..|uses|] == uses;
    TouchedIsTail(Recency(uses), key, capacity);
  }

  // ----- The specification of the store --------------------------------------------------------------------

  /** One call: allow when `asks`, retry_after otherwise. Both count as a use of the key. */
  datatype Use = Use(key: Client, now: Time, asks: bool)

  ghost function Keys(trace: seq<Use>): (s: seq<Client>)
    ensures |s| == |trace|
  {
    if trace == [] then [] else Keys(trace[..|trace| - 1]) + [trace[|trace| - 1].key]
  }

  /** The accepted history of `key` when it is forgotten exactly after `capacity` distinct
      other keys were used since its last use. */
  ghost function Kept(rule: Rule, capacity: nat, trace: seq<Use>, key: Client): (h: seq<Time>) {
    if trace == [] then []
    else
      var n := |trace| - 1;
      var u := trace[n];
      if u.key != key then Kept(rule, capacity, trace[..n], key)
      else
        var h := if Remembered(Keys(trace[..n]), key, capacity) then Kept(rule, capacity, trace[..n], key) else [];
        if u.asks then Accepted(rule, h, u.now) else h
  }

  /** What the next call for `key` finds. */
  ghost function Visible(rule: Rule, capacity: nat, trace: seq<Use>, key: Client): (h: seq<Time>) {
    if Remembered(Keys(trace), key, capacity) then Kept(rule, capacity, trace, key) else []
  }

  /** The accepted history of a limiter of its own for `key`, never forgotten. */
  ghost function Independent(rule: Rule, trace: seq<Use>, key: Client): (h: seq<Time>) {
    if trace == [] then []
    else
      var n := |trace| - 1;
      var u := trace[n];
      if u.key == key && u.asks then Accepted(rule, Independent(rule, trace[..n], key), u.now)
      else Independent(rule, trace[..n], key)
  }

  /** Never were `capacity` distinct other keys used between two uses of `key`. */
  ghost predicate Undisturbed(capacity: nat, trace: seq<Use>, key: Client) {
    forall m | 0 <= m < |trace| && trace[m].key == key && key in Keys(trace[..m]) :: Remembered(Keys(trace[..m]), key, capacity)
  }

  lemma {:induction false} UnusedIsEmpty(rule: Rule, trace: seq<Use>, key: Client)
    requires key !in Keys(trace)
    ensures Independent(rule, trace, key) == []
  {
    if trace != [] {
      var n := |trace| - 1;
      assert Keys(trace)[n] == trace[n].key;
      UnusedIsEmpty(rule, trace[..n], key);
    }
  }

  /** Until a key is evicted, the store treats it as if every key had its own limiter. */
  lemma {:induction false} UndisturbedIsIndependent(rule: Rule, capacity: nat, trace: seq<Use>, key: Client)
    requires Undisturbed(capacity, trace, key)
    ensures Kept(rule, capacity, trace, key) == Independent(rule, trace, key)
  {
    if trace != [] {
      var n := |trace| - 1;
      var front := trace[..n];
      forall m | 0 <= m < |front| && front[m].key == key && key in Keys(front[..m]) ensures Remembered(Keys(front[..m]), key, capacity) {
        assert front[..m] == trace[..m];
      }
      UndisturbedIsIndependent(rule, capacity, front, key);
      if trace[n].key == key && key !in Keys(front) {
        UnusedIsEmpty(rule, front, key);
      }
    }
  }

  /** The answers of the store to the next call for a key that is still remembered, or was
      never used, are those of the unbounded map. */
  lemma SameAnswers(rule: Rule, capacity: nat, trace: seq<Use>, key: Client, now: Time)
    requires Undisturbed(capacity, trace, key) && (key in Keys(trace) ==> Remembered(Keys(trace), key, capacity))
    requires rule.limit > 0
    ensures Full(rule, Visible(rule, capacity, trace, key), now) <==> Full(rule, Independent(rule, trace, key), now)
    ensures RetryAfter(rule, Visible(rule, capacity, trace, key), now) == RetryAfter(rule, Independent(rule, trace, key), now)
  {
    UndisturbedIsIndependent(rule, capacity, trace, key);
    if key !in Keys(trace) {
      UnusedIsEmpty(rule, trace, key);
    }
  }

  // ----- The store -----------------------------------------------------------------------------------------

  ghost function LastUse(trace: seq<Use>, key: Client): (t: Time)
    requires key in Keys(trace)
  {
    var n := |trace| - 1;
    assert Keys(trace) == Keys(trace[..n]) + [trace[n].key];
    if trace[n].key == key then trace[n].now else LastUse(trace[..n], key)
  }

  /** The stored window of a key is its history restricted to the window of its last call. */
  ghost predicate Sound(rule: Rule, capacity: nat, trace: seq<Use>, clock: Time, key: Client, window: seq<Time>) {
    && key in Keys(trace) && LastUse(trace, key) <= clock
    && History(rule, Kept(rule, capacity, trace, key), LastUse(trace, key))
    && window == WindowAt(rule, Kept(rule, capacity, trace, key), LastUse(trace, key))
  }

  /** Another key's use leaves a window alone. */
  lemma SoundOther(rule: Rule, capacity: nat, trace: seq<Use>, clock: Time, u: Use, key: Client, window: seq<Time>)
    requires Sound(rule, capacity, trace, clock, key, window) && u.key != key && clock <= u.now
    ensures Sound(rule, capacity, trace + [u], u.now, key, window)
  {
    assert (trace + [u])[..|trace|] == trace;
  }

  /** The trace after one more call. */
  lemma OneMore(rule: Rule, capacity: nat, trace: seq<Use>, u: Use)
    ensures Keys(trace + [u]) == Keys(trace) + [u.key]
    ensures LastUse(trace + [u], u.key) == u.now
    ensures Kept(rule, capacity, trace + [u], u.key)
            == var h := Visible(rule, capacity, trace, u.key); if u.asks then Accepted(rule, h, u.now) else h
  {
    assert (trace + [u])[..|trace|] == trace;
  }

  /** Its own use finds a history in order and leaves one. */
  lemma OwnHistory(rule: Rule, capacity: nat, trace: seq<Use>, clock: Time, u: Use)
    requires ValidRule(rule) && clock <= u.now
    requires Remembered(Keys(trace), u.key, capacity) ==>
               LastUse(trace, u.key) <= clock && History(rule, Kept(rule, capacity, trace, u.key), LastUse(trace, u.key))
    ensures History(rule, Visible(rule, capacity, trace, u.key), u.now)
    ensures History(rule, Kept(rule, capacity, trace + [u], u.key), u.now)
  {
    OneMore(rule, capacity, trace, u);
    var h := Visible(rule, capacity, trace, u.key);
    if Remembered(Keys(trace), u.key, capacity) {
      HistoryUpTo(rule, h, LastUse(trace, u.key), u.now);
    }
    AcceptedKeeps(rule, h, u.now, u.now);
  }

  ghost predicate WindowsSound(rule: Rule, capacity: nat, trace: seq<Use>, clock: Time, windows: map<Client, seq<Time>>) {
    forall k | k in windows :: Sound(rule, capacity, trace, clock, k, windows[k])
  }

  /** The list and the windows are what the trace says. */
  ghost predicate StoreOk(rule: Rule, capacity: nat, trace: seq<Use>, clock: Time, order: seq<Client>, windows: map<Client, seq<Time>>) {
    && order == LastN(Recency(Keys(trace)), capacity)
    && windows.Keys == Elems(order)
    && WindowsSound(rule, capacity, trace, clock, windows)
  }

  /** Exactly the remembered keys are stored. */
  lemma StoredIsRemembered(rule: Rule, capacity: nat, trace: seq<Use>, clock: Time, order: seq<Client>, windows: map<Client, seq<Time>>, key: Client)
    requires StoreOk(rule, capacity, trace, clock, order, windows)
    ensures key in windows <==> Remembered(Keys(trace), key, capacity)
    ensures Distinct(order)
  {
    LastNRemembered(Keys(trace), key, capacity);
    RecencyDistinct(Keys(trace));
    assert key in windows <==> key in order;
  }

  /** What the next call for a key finds in the store, stored or not. */
  lemma FoundWindow(rule: Rule, capacity: nat, trace: seq<Use>, clock: Time, order: seq<Client>, windows: map<Client, seq<Time>>, u: Use)
    returns (last: Time)
    requires ValidRule(rule) && StoreOk(rule, capacity, trace, clock, order, windows) && clock <= u.now
    ensures last <= u.now
    ensures u.key in windows ==> windows[u.key] == WindowAt(rule, Visible(rule, capacity, trace, u.key), last)
    ensures u.key !in windows ==> Visible(rule, capacity, trace, u.key) == []
    ensures History(rule, Visible(rule, capacity, trace, u.key), u.now)
    ensures History(rule, Kept(rule, capacity, trace + [u], u.key), u.now)
  {
    StoredIsRemembered(rule, capacity, trace, clock, order, windows, u.key);
    if u.key in windows {
      assert Sound(rule, capacity, trace, clock, u.key, windows[u.key]);
      last := LastUse(trace, u.key);
      assert Visible(rule, capacity, trace, u.key) == Kept(rule, capacity, trace, u.key);
    } else {
      last := u.now;
    }
    OwnHistory(rule, capacity, trace, clock, u);
  }

  lemma WindowsNoted(rule: Rule, capacity: nat, trace: seq<Use>, clock: Time, before: map<Client, seq<Time>>,
                     windows: map<Client, seq<Time>>, u: Use, events: seq<Time>)
    requires WindowsSound(rule, capacity, trace, clock, before) && clock <= u.now
    requires forall k | k in windows && k != u.key :: k in before && windows[k] == before[k]
    requires Sound(rule, capacity, trace + [u], u.now, u.key, events)
    ensures WindowsSound(rule, capacity, trace + [u], u.now, windows[u.key := events])
  {
    var noted := windows[u.key := events];
    forall k | k in noted ensures Sound(rule, capacity, trace + [u], u.now, k, noted[k]) {
      if k != u.key {
        SoundOther(rule, capacity, trace, clock, u, k, before[k]);
      }
    }
  }

  lemma OwnSound(rule: Rule, capacity: nat, trace: seq<Use>, u: Use)
    requires History(rule, Kept(rule, capacity, trace + [u], u.key), u.now)
    ensures Sound(rule, capacity, trace + [u], u.now, u.key, WindowAt(rule, Kept(rule, capacity, trace + [u], u.key), u.now))
  {
    OneMore(rule, capacity, trace, u);
  }

  lemma Noted(rule: Rule, capacity: nat, trace: seq<Use>, clock: Time, order: seq<Client>, before: map<Client, seq<Time>>,
              windows: map<Client, seq<Time>>, u: Use, events: seq<Time>) returns (next: seq<Use>, noted: map<Client, seq<Time>>)
    requires clock <= u.now && u.key in windows
    requires order == LastN(Recency(Keys(trace + [u])), capacity) && windows.Keys == Elems(order)
    requires WindowsSound(rule, capacity, trace, clock, before)
    requires forall k | k in windows && k != u.key :: k in before && windows[k] == before[k]
    requires History(rule, Kept(rule, capacity, trace + [u], u.key), u.now)
    requires events == WindowAt(rule, Kept(rule, capacity, trace + [u], u.key), u.now)
    ensures next == trace + [u] && noted == windows[u.key := events]
    ensures StoreOk(rule, capacity, next, u.now, order, noted)
  {
    next, noted := trace + [u], windows[u.key := events];
    OwnSound(rule, capacity, trace, u);
    WindowsNoted(rule, capacity, trace, clock, before, windows, u, events);
    assert windows[u.key := events].Keys == windows.Keys;
  }

  class BoundedLimiterStore {
    const rule: Rule
    const capacity: nat
    var order: seq<Client>                // least recently used first
    var windows: map<Client, seq<Time>>
    ghost var trace: seq<Use>
    ghost var clock: Time

    ghost predicate Valid()
      reads this
    {
      ValidRule(rule) && capacity > 0 && StoreOk(rule, capacity, trace, clock, order, windows)
    }

    constructor (rule: Rule, capacity: nat, ghost now: Time)
      requires ValidRule(rule) && capacity > 0
      ensures Valid() && this.rule == rule && this.capacity == capacity && trace == [] && clock == now
    {
      this.rule := rule;
      this.capacity := capacity;
      order, windows, trace, clock := [], map[], [], now;
    }

    /** _get_or_create: the key is the most recently used one afterwards. */
    method GetOrCreate(key: Client)
      requires capacity > 0 && Distinct(order) && windows.Keys == Elems(order)
      modifies this`order, this`windows
      ensures order == Touched(old(order), key, capacity) && windows.Keys == Elems(order)
      ensures forall k | k in windows :: windows[k] == if k in old(windows) then old(windows)[k] else []
      ensures forall k | k in windows && k !in old(windows) :: k == key
    {
      if key !in windows {
        assert key !in order;
        if |order| >= capacity {
          var oldest := order[0];
          assert forall k | k in order[1..] :: k in order && k != oldest;
          assert Elems(order) == Elems(order[1..]) + {oldest};
          windows := windows - {oldest};
          order := order[1..];
        }
        assert Elems(order + [key]) == Elems(order) + {key};
        windows := windows[key := []];
        order := order + [key];
      } else {
        assert key in order;
        assert Elems(Without(order, key) + [key]) == Elems(order);
        order := Without(order, key) + [key];
      }
    }

    /** The key's window as the next call finds it, pruned at `now`. */
    method Fetch(key: Client, now: Time, ghost asks: bool) returns (events: seq<Time>)
      requires Valid() && clock <= now
      modifies this`order, this`windows
      ensures order == Touched(old(order), key, capacity) && windows.Keys == Elems(order) && key in windows
      ensures forall k | k in windows && k != key :: k in old(windows) && windows[k] == old(windows)[k]
      ensures events == WindowAt(rule, Visible(rule, capacity, trace, key), now)
      ensures History(rule, Kept(rule, capacity, trace + [Use(key, now, asks)], key), now)
    {
      ghost var last := FoundWindow(rule, capacity, trace, clock, order, windows, Use(key, now, asks));
      StoredIsRemembered(rule, capacity, trace, clock, order, windows, key);
      GetOrCreate(key);
      assert key in order;
      events := PopStale(rule, windows[key], now, Visible(rule, capacity, trace, key), last);
    }

    /** allow: what a limiter with the key's visible history answers; other keys are
        untouched, and the store never exceeds its capacity. */
    method Allow(key: Client, now: Time) returns (ok: bool)
      requires Valid() && clock <= now
      modifies this
      ensures Valid() && trace == old(trace) + [Use(key, now, true)] && clock == now
      ensures ok <==> !Full(rule, Visible(rule, capacity, old(trace), key), now)
      ensures |order| <= capacity
    {
      ghost var u := Use(key, now, true);
      ghost var h := Visible(rule, capacity, trace, key);
      ghost var before := windows;
      OneMore(rule, capacity, trace, u);
      TouchedIsLast(Keys(trace), key, capacity);
      var events := Fetch(key, now, true);
      ok := |events| < rule.limit;
      if ok {
        WindowAppend(rule, h, now);
        events := events + [now];
      }
      ghost var next, noted := Noted(rule, capacity, trace, clock, order, before, windows, u, events);
      Note(key, events, next, now);
    }

    method RetryAfterNow(key: Client, now: Time) returns (d: Time)
      requires Valid() && clock <= now
      modifies this
      ensures Valid() && trace == old(trace) + [Use(key, now, false)] && clock == now
      ensures d == RetryAfter(rule, Visible(rule, capacity, old(trace), key), now)
      ensures |order| <= capacity
    {
      ghost var u := Use(key, now, false);
      ghost var before := windows;
      OneMore(rule, capacity, trace, u);
      TouchedIsLast(Keys(trace), key, capacity);
      var events := Fetch(key, now, false);
      d := Delay(rule, events, now);
      ghost var next, noted := Noted(rule, capacity, trace, clock, order, before, windows, u, events);
      Note(key, events, next, now);
    }

    /** The call is over: its window is stored and the trace goes on. */
    method Note(key: Client, events: seq<Time>, ghost next: seq<Use>, ghost now: Time)
      requires ValidRule(rule) && capacity > 0 && StoreOk(rule, capacity, next, now, order, windows[key := events])
      modifies this`windows, this`trace, this`clock
      ensures Valid() && trace == next && clock == now
    {
      windows, trace, clock := windows[key := events], next, now;
    }

    method Reset()
      requires Valid()
      modifies this
      ensures Valid() && trace == [] && clock == old(clock)
    {
      order, windows, trace := [], map[], [];
    }
  }

  /** What the store remembers of a key is a history in order. */
  lemma VisibleHistory(store: BoundedLimiterStore, key: Client, now: Time)
    requires store.Valid() && store.clock <= now
    ensures History(store.rule, Visible(store.rule, store.capacity, store.trace, key), now)
  {
    var last := FoundWindow(store.rule, store.capacity, store.trace, store.clock, store.order, store.windows, Use(key, now, true));
  }

  /** Whether the next call for a key finds room, by counting what the store remembers of it. */
  lemma StoreRoomExactly(store: BoundedLimiterStore, key: Client, now: Time, h: seq<Time>)
    requires store.Valid() && store.clock <= now && h == Visible(store.rule, store.capacity, store.trace, key)
    ensures Full(store.rule, h, now) <==> CountIn(h, now - store.rule.window, now) >= store.rule.limit
  {
    VisibleHistory(store, key, now);
    RoomExactly(store.rule, h, now);
  }

  /** Exactly the remembered keys are stored: a key is evicted when, and only when, `capacity`
      distinct other keys have been used since its last use. */
  lemma StoredExactlyRemembered(store: BoundedLimiterStore, key: Client)
    requires store.Valid()
    ensures key in store.windows <==> Remembered(Keys(store.trace), key, store.capacity)
    ensures |store.windows.Keys| == |store.order|
    ensures ghost var used := |Elems(Keys(store.trace))|;
            |store.order| == if used <= store.capacity then used else store.capacity
  {
    ghost var all := Recency(Keys(store.trace));
    RecencyDistinct(Keys(store.trace));
    SetOfDistinct(all);
    assert Elems(all) == Elems(Keys(store.trace));
    StoredIsRemembered(store.rule, store.capacity, store.trace, store.clock, store.order, store.windows, key);
    SetOfDistinct(store.order);
  }
}
