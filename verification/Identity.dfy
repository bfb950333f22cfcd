/** Payer identities (app/services/payer_identity.py): one gateway user id for every
    Telegram user, and one in a reserved range for every order without a Telegram user.
    Keyed hashes are represented by the key itself: equal hashes mean equal keys. */
module Identity {
  import opened Common

  const MAX_TELEGRAM_USER_ID := 0x10_0000_0000_0000 - 1   // 2^52 - 1
  const ORDER_FALLBACK_MIN := 6_000_000_000_000_000
  const ORDER_FALLBACK_SPAN := 1_000_000_000_000
  const MAX_DERIVATION_ATTEMPTS := 10_000

  datatype Key = TelegramKey(user: int) | OrderKey(order: string)

  datatype Row = Row(key: Key, gatewayUserId: int)

  /** `digest` is the keyed hash of an order and an attempt, `reserved` the legacy shared
      user id. */
  datatype Rules = Rules(digest: (string, nat) -> nat, reserved: Option<int>)

  /** derive_order_gateway_user_id. */
  function Candidate(rules: Rules, order: string, attempt: nat): (g: int)
    ensures 0x10_0000_0000_0000 <= 6_000_000_000_000_000 <= g < 6_001_000_000_000_000 < 0x8000_0000_0000_0000
  {
    ORDER_FALLBACK_MIN + rules.digest(order, attempt) % ORDER_FALLBACK_SPAN
  }

  predicate TelegramRange(user: int) {
    1 <= user <= MAX_TELEGRAM_USER_ID
  }

  /** _lookup. */
  function Lookup(table: seq<Row>, key: Key): (r: Option<nat>)
    ensures r.Some? ==> r.value < |table| && table[r.value].key == key
    ensures r.None? ==> forall i | 0 <= i < |table| :: table[i].key != key
  {
    if table == [] then None
    else
      var n := |table| - 1;
      if table[n].key == key then Some(n) else Lookup(table[..n], key)
  }

  /** One of the two unique indexes rejects the row. */
  predicate Conflicts(table: seq<Row>, row: Row) {
    exists i | 0 <= i < |table| :: table[i].key == row.key || table[i].gatewayUserId == row.gatewayUserId
  }

  // ----- Resolving, one transaction at a time ------------------------------------------------

  datatype Probe = Look | Put(attempt: nat) | Again(attempt: nat)

  datatype Progress =
    | Going(probe: Probe)
    | Resolved(id: nat)
    | Collision
    | Exhausted
    | OutOfRange

  /** The row the given attempt tries to insert, None when the candidate is the reserved id. */
  function Attempted(rules: Rules, key: Key, attempt: nat): (r: Option<Row>)
    ensures r.Some? ==> r.value.key == key
    ensures key.OrderKey? && r.Some? ==> Some(r.value.gatewayUserId) != rules.reserved
  {
    match key
    case TelegramKey(user) => Some(Row(key, user))
    case OrderKey(order) =>
      var g := Candidate(rules, order, attempt);
      if Some(g) == rules.reserved then None else Some(Row(key, g))
  }

  /** The loop head of _resolve_order_hmac; a Telegram user has one attempt. */
  function NextAttempt(attempt: nat): (p: Progress) {
    if attempt + 1 < MAX_DERIVATION_ATTEMPTS then Going(Put(attempt + 1)) else Exhausted
  }

  function Looked(rules: Rules, table: seq<Row>, key: Key): (p: Progress) {
    if key.TelegramKey? && !TelegramRange(key.user) then OutOfRange
    else if Lookup(table, key).Some? then Resolved(Lookup(table, key).value)
    else if key.TelegramKey? && Some(key.user) == rules.reserved then Collision
    else Going(Put(0))
  }

  function Inserted(rules: Rules, table: seq<Row>, key: Key, attempt: nat): (p: Progress) {
    var row := Attempted(rules, key, attempt);
    if row.None? then NextAttempt(attempt)
    else if Conflicts(table, row.value) then Going(Again(attempt))
    else Resolved(|table|)
  }

  function LookedAgain(table: seq<Row>, key: Key, attempt: nat): (p: Progress) {
    if Lookup(table, key).Some? then Resolved(Lookup(table, key).value)
    else if key.TelegramKey? then Collision
    else NextAttempt(attempt)
  }

  function Advance(rules: Rules, table: seq<Row>, key: Key, probe: Probe): (p: Progress)
    ensures p.Resolved? ==> p.id < |TableAfter(rules, table, key, probe)|
  {
    match probe
    case Look => Looked(rules, table, key)
    case Put(n) => Inserted(rules, table, key, n)
    case Again(n) => LookedAgain(table, key, n)
  }

  /** Only a successful insert changes the table. */
  function TableAfter(rules: Rules, table: seq<Row>, key: Key, probe: Probe): (t: seq<Row>)
    ensures table <= t
  {
    if probe.Put? && Inserted(rules, table, key, probe.attempt).Resolved?
    then table + [Attempted(rules, key, probe.attempt).value]
    else table
  }

  // ----- What holds of the table, whoever inserts -----------------------------------------------

  /** The value a key may own. */
  ghost predicate Owns(rules: Rules, r: Row) {
    && Some(r.gatewayUserId) != rules.reserved
    && match r.key
       case TelegramKey(user) => TelegramRange(user) && r.gatewayUserId == user
       case OrderKey(_) => ORDER_FALLBACK_MIN <= r.gatewayUserId < ORDER_FALLBACK_MIN + ORDER_FALLBACK_SPAN
  }

  /** Keys and gateway user ids are one-to-one, and every key owns a value of its own kind. */
  ghost predicate TableOk(rules: Rules, table: seq<Row>) {
    && (forall i | 0 <= i < |table| :: Owns(rules, table[i]))
    && (forall i, j | 0 <= i < j < |table| :: table[i].key != table[j].key)
    && (forall i, j | 0 <= i < j < |table| :: table[i].gatewayUserId != table[j].gatewayUserId)
  }

  /** A resolver past its lookup has a key it may insert; a Telegram resolver whose insert
      was rejected lost to its own key. */
  ghost predicate ProbeOk(rules: Rules, table: seq<Row>, key: Key, probe: Probe) {
    && (probe.Look? || key.OrderKey? || (TelegramRange(key.user) && Some(key.user) != rules.reserved))
    && (probe.Again? && key.TelegramKey? ==> Lookup(table, key).Some?)
    && (!probe.Look? && key.OrderKey? ==> probe.attempt < MAX_DERIVATION_ATTEMPTS)
  }

  lemma LookupGrows(table: seq<Row>, longer: seq<Row>, key: Key)
    requires table <= longer && Lookup(table, key).Some?
    ensures Lookup(longer, key).Some?
  {
    assert longer[Lookup(table, key).value].key == key;
  }

  lemma LookupUnique(rules: Rules, table: seq<Row>, i: nat)
    requires TableOk(rules, table) && i < |table|
    ensures Lookup(table, table[i].key) == Some(i)
  {
    var found := Lookup(table, table[i].key);
    assert found.Some?;
    assert table[found.value].key == table[i].key;
  }

  /** The number of a Telegram user is never owned by anybody else's key. */
  lemma TelegramConflictIsOwnKey(rules: Rules, table: seq<Row>, user: int)
    requires TableOk(rules, table) && TelegramRange(user)
    ensures Conflicts(table, Row(TelegramKey(user), user)) <==> Lookup(table, TelegramKey(user)).Some?
  {
    if i :| 0 <= i < |table| && table[i].gatewayUserId == user {
      assert Owns(rules, table[i]);
    }
    var found := Lookup(table, TelegramKey(user));
    if found.Some? {
      assert table[found.value].key == TelegramKey(user);
    }
  }

  lemma AdvanceKeepsTable(rules: Rules, table: seq<Row>, key: Key, probe: Probe)
    requires TableOk(rules, table) && ProbeOk(rules, table, key, probe)
    ensures TableOk(rules, TableAfter(rules, table, key, probe))
  {
    var after := TableAfter(rules, table, key, probe);
    if after != table {
      var row := Attempted(rules, key, probe.attempt).value;
      assert Owns(rules, row);
      forall i | 0 <= i < |table| ensures table[i].key != row.key && table[i].gatewayUserId != row.gatewayUserId {
        assert !Conflicts(table, row);
      }
    }
  }

  /** Whatever the other resolvers do: a resolver that ends holds the row of its own key,
      and one that goes on is in order. */
  lemma AdvanceSpec(rules: Rules, table: seq<Row>, key: Key, probe: Probe)
    requires TableOk(rules, table) && ProbeOk(rules, table, key, probe)
    ensures var t, p := TableAfter(rules, table, key, probe), Advance(rules, table, key, probe);
            && (p.Resolved? ==> p.id < |t| && t[p.id].key == key)
            && (p.Going? ==> ProbeOk(rules, t, key, p.probe))
            && (p.Collision? ==> key.TelegramKey? && Some(key.user) == rules.reserved)
  {
    if probe.Put? && key.TelegramKey? {
      TelegramConflictIsOwnKey(rules, table, key.user);
    }
  }

  lemma ProbeStable(rules: Rules, table: seq<Row>, longer: seq<Row>, key: Key, probe: Probe)
    requires ProbeOk(rules, table, key, probe) && table <= longer
    ensures ProbeOk(rules, longer, key, probe)
  {
    if Lookup(table, key).Some? {
      LookupGrows(table, longer, key);
    }
  }

  /** Resolving a Telegram user, alone, from a valid table: one lookup and at most one insert. */
  lemma TelegramPath(rules: Rules, table: seq<Row>, user: int)
    requires TableOk(rules, table)
    ensures var p := Advance(rules, table, TelegramKey(user), Look);
            && (p.Going? <==> TelegramRange(user) && Some(user) != rules.reserved && Lookup(table, TelegramKey(user)).None?)
            && (p.Going? ==> p.probe == Put(0))
            && (p.Resolved? ==> table[p.id] == Row(TelegramKey(user), user) && TelegramRange(user) && Some(user) != rules.reserved)
            && (p.OutOfRange? <==> !TelegramRange(user))
            && !p.Exhausted?
    ensures TelegramRange(user) && Lookup(table, TelegramKey(user)).None? ==>
              && Advance(rules, table, TelegramKey(user), Put(0)) == Resolved(|table|)
              && TableAfter(rules, table, TelegramKey(user), Put(0)) == table + [Row(TelegramKey(user), user)]
  {
    if Lookup(table, TelegramKey(user)).Some? {
      MappedTelegram(rules, table, user);
    } else if TelegramRange(user) {
      TelegramConflictIsOwnKey(rules, table, user);
    }
  }

  /** Trying the n-th candidate of an order that is not mapped. */
  lemma OrderPath(rules: Rules, table: seq<Row>, order: string, n: nat)
    requires Lookup(table, OrderKey(order)).None?
    ensures var p := Advance(rules, table, OrderKey(order), Put(n));
            && (Usable(rules, table, OrderKey(order), n) ==> p == Resolved(|table|))
            && (!Usable(rules, table, OrderKey(order), n) ==> p == Going(Again(n)) || p == NextAttempt(n))
    ensures Advance(rules, table, OrderKey(order), Again(n)) == NextAttempt(n)
  {
  }

  /** The n-th candidate of a key can be inserted. */
  predicate Usable(rules: Rules, table: seq<Row>, key: Key, n: nat) {
    var row := Attempted(rules, key, n);
    row.Some? && !Conflicts(table, row.value)
  }

  /** Resolving a key that is already mapped reads one row and writes nothing. */
  lemma MappedKeyNoWrite(rules: Rules, table: seq<Row>, i: nat)
    requires TableOk(rules, table) && i < |table|
    ensures Advance(rules, table, table[i].key, Look) == Resolved(i)
    ensures TableAfter(rules, table, table[i].key, Look) == table
  {
    LookupUnique(rules, table, i);
    assert Owns(rules, table[i]);
  }

  /** A mapped Telegram user has an id in range that is not the shared one. */
  lemma MappedTelegram(rules: Rules, table: seq<Row>, user: int)
    requires TableOk(rules, table) && Lookup(table, TelegramKey(user)).Some?
    ensures TelegramRange(user) && Some(user) != rules.reserved
    ensures table[Lookup(table, TelegramKey(user)).value] == Row(TelegramKey(user), user)
  {
    assert Owns(rules, table[Lookup(table, TelegramKey(user)).value]);
  }
}
