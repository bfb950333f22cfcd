/** create_payment and the payer identity resolver (app/services/payments.py,
    app/services/payer_identity.py) on the tables they update. Every commit is one step of
    the creation machine, so whatever the machine guarantees holds between any two of them. */
module Desk {
  import opened Common
  import opened Rows
  import opened Identity
  import opened Creation
  import Fees
  import Delivery
  import Runs

  /** The tables are what the machine says they are. */
  ghost predicate Mirrors(w: World, ids: seq<Row>, rows: seq<Payment>, events: seq<Event>) {
    w.identities == ids && RowsOf(w.flows) == rows && w.events == events
  }

  /** The first usable candidate of an order is n. */
  ghost predicate FirstUsable(rules: Rules, table: seq<Row>, key: Key, n: nat) {
    Usable(rules, table, key, n) && forall m: nat | m < n :: !Usable(rules, table, key, m)
  }

  /** The call goes on at `pc`; nobody else's call and no answer has changed. */
  ghost predicate Stands(w: World, v: World, c: nat, req: Request, pc: Pc) {
    v.calls == w.calls[c := Call(req, pc)] && v.answers == w.answers
  }

  /** The call is over with this answer. */
  ghost predicate Over(w: World, v: World, c: nat, req: Request, a: Answer) {
    v.calls == w.calls - {c} && v.answers == w.answers + [Answered(req, a)]
  }

  /** The call is over, with an answer unless its process died. */
  ghost predicate Ended(w: World, v: World, c: nat, req: Request, a: Option<Answer>) {
    v.calls == w.calls - {c} && v.answers == w.answers + if a.Some? then [Answered(req, a.value)] else []
  }

  /** One stretch of a call after another. */
  lemma Later(w: World, v: World, u: World, c: nat, req: Request, pc: Pc)
    requires Stands(w, v, c, req, pc)
    ensures forall later :: Stands(v, u, c, req, later) ==> Stands(w, u, c, req, later)
    ensures forall a :: Over(v, u, c, req, a) ==> Over(w, u, c, req, a)
  {
    forall later | Stands(v, u, c, req, later) ensures Stands(w, u, c, req, later) {
      assert w.calls[c := Call(req, pc)][c := Call(req, later)] == w.calls[c := Call(req, later)];
    }
    forall a | Over(v, u, c, req, a) ensures Over(w, u, c, req, a) {
      assert w.calls[c := Call(req, pc)] - {c} == w.calls - {c};
    }
  }

  lemma EndedLater(w: World, v: World, u: World, c: nat, req: Request, pc: Pc, a: Option<Answer>)
    requires Stands(w, v, c, req, pc) && Ended(v, u, c, req, a)
    ensures Ended(w, u, c, req, a)
    ensures c !in w.calls ==> u.calls == w.calls
  {
  }

  /** Where a call goes on once its payer is known. */
  function Onwards(money: Option<Money>, payer: Payer): (pc: Pc) {
    if money.Some? then Inserting(money.value, payer) else Locking(payer)
  }

  /** What a transaction of the resolver does to the calls. */
  ghost predicate Resolves(w: World, v: World, c: nat, req: Request, money: Option<Money>, p: Progress) {
    match p
    case Going(probe) => Stands(w, v, c, req, Resolving(money, probe))
    case Resolved(id) => id < |v.identities| && Stands(w, v, c, req, Onwards(money, PayerFor(req, v.identities, id)))
    case Collision => Over(w, v, c, req, IdentityCollided)
    case Exhausted => Over(w, v, c, req, IdentityUnavailable)
    case OutOfRange => Over(w, v, c, req, IdentityUnavailable)
  }

  lemma ResolveEffect(cfg: Config, w: World, c: nat, req: Request, money: Option<Money>, probe: Probe)
    requires c in w.calls && w.calls[c] == Call(req, Resolving(money, probe))
    ensures var v := Apply(cfg, w, Resolve(c));
            var p, table := Advance(cfg.rules, w.identities, KeyOf(req), probe), TableAfter(cfg.rules, w.identities, KeyOf(req), probe);
            && v.identities == table && v.flows == w.flows
            && v.events == w.events + ResolveEvents(w.identities, table, p)
            && Resolves(w, v, c, req, money, p)
  {
  }

  /** Where the check for an existing row and the fee calculation lead. */
  lemma CheckEffect(cfg: Config, w: World, c: nat, req: Request, rateBps: int)
    requires c in w.calls && w.calls[c] == Call(req, Checking)
    ensures var v := Apply(cfg, w, Check(c, rateBps));
            var money := Fees.CalculateFee(req.amount, rateBps);
            && v.identities == w.identities && v.flows == w.flows && v.events == w.events
            && (if RowOf(RowsOf(w.flows), req.order).Some? then Stands(w, v, c, req, Resolving(None, Look))
                else if money.None? then Over(w, v, c, req, InvalidAmount)
                else if money.value.payable > cfg.maxAmount then Over(w, v, c, req, AmountTooLarge)
                else Stands(w, v, c, req, Resolving(money, Look)))
  {
  }

  lemma InsertEffect(cfg: Config, w: World, c: nat, req: Request, money: Money, payer: Payer, now: Time, idTaken: bool)
    requires c in w.calls && w.calls[c] == Call(req, Inserting(money, payer))
    ensures var v := Apply(cfg, w, InsertRow(c, now, idTaken));
            && v.identities == w.identities
            && if RowOf(RowsOf(w.flows), req.order).Some? || idTaken
               then v.flows == w.flows && v.events == w.events && Stands(w, v, c, req, Resolving(None, Look))
               else && RowsOf(v.flows) == RowsOf(w.flows) + [NewRow(req, money, payer, now)]
                    && v.events == w.events + [Event(PaymentCreated, Some(|w.flows|)), Event(FeeSnapshotted, Some(|w.flows|))]
                    && Stands(w, v, c, req, Locking(payer))
  {
  }

  lemma RefusedEffect(cfg: Config, w: World, c: nat, req: Request, payer: Payer, reply: GatewayReply, id: nat)
    requires c in w.calls && w.calls[c] == Call(req, Locking(payer)) && reply != Link("")
    requires RowOf(RowsOf(w.flows), req.order) == Some(id) && Refusal(w.flows[id].row, req, payer).Some?
    ensures var v, a := Apply(cfg, w, Lock(c, reply)), Refusal(w.flows[id].row, req, payer).value;
            && v.identities == w.identities && v.flows == w.flows
            && v.events == w.events + RefusalEvents(a, id)
            && Over(w, v, c, req, a)
  {
  }

  /** The answer of a call whose getLink was answered. */
  function LinkAnswer(reply: GatewayReply): (a: Answer)
    requires !reply.Died?
  {
    if reply.Link? then Url(reply.url) else GatewayFailed
  }

  lemma LinkEffect(cfg: Config, w: World, c: nat, req: Request, payer: Payer, reply: GatewayReply, id: nat)
    requires c in w.calls && w.calls[c] == Call(req, Locking(payer)) && reply != Link("")
    requires RowOf(RowsOf(w.flows), req.order) == Some(id) && Refusal(w.flows[id].row, req, payer).None?
    ensures var v, p := Apply(cfg, w, Lock(c, reply)), w.flows[id].row;
            && v.identities == w.identities
            && (reply.Died? ==> v.flows == w.flows && v.events == w.events && v.calls == w.calls - {c} && v.answers == w.answers)
            && (!reply.Died? ==>
                  && RowsOf(v.flows) == RowsOf(w.flows)[id := Linked(p, payer, reply)]
                  && v.events == w.events + AdoptEvents(p, payer, id) + [LinkEvent(reply, id)]
                  && Over(w, v, c, req, LinkAnswer(reply)))
  {
  }

  /** What a request is told whose payer cannot be resolved. */
  function UnresolvedAnswer(req: Request): (a: Answer) {
    if req.telegram.Some? && TelegramRange(req.telegram.value) then IdentityCollided else IdentityUnavailable
  }

  /** The trail tells why a call ended as it did: a mismatch and a gateway answer leave their
      event, every other answer none. */
  ghost predicate Explained(before: seq<Event>, after: seq<Event>, a: Answer) {
    match a
    case OtherCustomer => |after| == |before| + 1 && before <= after && after[|before|].kind == CustomerMismatch
    case OtherAmount => |after| == |before| + 1 && before <= after && after[|before|].kind == AmountMismatch
    case GatewayFailed => before < after && after[|after| - 1].kind == LinkFailed
    case Url(_) => after == before || (before < after && after[|after| - 1].kind == LinkIssued)
    case _ => after == before
  }

  // ----- What a call comes to, by the columns of its order's row ------------------------------------

  /** The payer under which an owed link is issued: an order without a Telegram user takes the
      one who asks now. */
  ghost function Charged(p: Payment, req: Request, payer: Payer): (q: Payer) {
    if p.payer.kind == OrderFallback && req.telegram.Some? then payer else p.payer
  }

  /** The row after getLink answered for it. */
  ghost predicate Issued(p: Payment, q: Payment, payer: Payer, reply: GatewayReply) {
    match reply
    case Died => q == p
    case Link(url) => q == p.(payer := payer, status := LinkCreated, redirectUrl := Some(url), lastError := None)
    case Refused(message) => q == p.(payer := payer, status := GetLinkFailed, lastError := Some(GatewayError(message)))
  }

  ghost predicate Told(reply: GatewayReply, a: Option<Answer>) {
    match reply
    case Died => a.None?
    case Link(url) => a == Some(Url(url))
    case Refused(_) => a == Some(GatewayFailed)
  }

  /** A call on the order's row p, which becomes q: each answer exactly when it is due, and when a
      link is owed the one getLink gives, stored on the row. */
  ghost predicate Answers(p: Payment, q: Payment, req: Request, payer: Payer, reply: GatewayReply, a: Option<Answer>) {
    && (a == Some(OtherCustomer) <==> Another(p, req))
    && (a == Some(OtherAmount) <==> !Another(p, req) && p.money.amount != req.amount)
    && (a == Some(AlreadyVerified) <==> SameOrder(p, req) && p.verifiedAt.Some?)
    && (a == Some(UnderReview) <==> SameOrder(p, req) && p.verifiedAt.None? && p.status == ManualReview)
    && (SameOrder(p, req) && p.verifiedAt.None? && p.status == LinkCreated ==>
          p.redirectUrl.Some? && a == Some(Url(p.redirectUrl.value)))
    && (Owed(p, req) ==> Issued(p, q, Charged(p, req, payer), reply) && Told(reply, a))
    && (!Owed(p, req) ==> q == p && a.Some?)
  }

  /** getLink's answer is in the trail, after the adoption of another payer if there was one. */
  ghost predicate Logged(before: seq<Event>, after: seq<Event>, p: Payment, q: Payment, reply: GatewayReply, id: nat) {
    var adopted := if q.payer != p.payer then [Event(IdentityAdopted, Some(id))] else [];
    match reply
    case Died => after == before
    case Link(_) => after == before + adopted + [Event(LinkIssued, Some(id))]
    case Refused(_) => after == before + adopted + [Event(LinkFailed, Some(id))]
  }

  /** The same about the whole table. */
  ghost predicate TableAnswers(before: seq<Payment>, after: seq<Payment>, req: Request, payer: Payer, reply: GatewayReply,
                               a: Option<Answer>) {
    && |after| == |before|
    && (RowOf(before, req.order).None? ==> a == Some(RowDisappeared))
    && forall i | 0 <= i < |before| ::
         if before[i].orderId == req.order then Answers(before[i], after[i], req, payer, reply, a) else after[i] == before[i]
  }

  /** The payer of a request can be resolved. */
  ghost predicate Resolvable(rules: Rules, table: seq<Row>, req: Request) {
    if req.telegram.Some? then 1 <= req.telegram.value < 0x10_0000_0000_0000 && req.telegram != rules.reserved
    else Lookup(table, KeyOf(req)).Some? || exists n: nat | n < 10_000 :: Usable(rules, table, KeyOf(req), n)
  }

  /** A call whose row it did not create: it has its payer, or is told why not. */
  ghost predicate EndsIn(rules: Rules, table: seq<Row>, before: seq<Payment>, after: seq<Payment>, req: Request,
                         reply: GatewayReply, a: Option<Answer>) {
    if Resolvable(rules, table, req)
    then exists payer: Payer :: (req.telegram.Some? ==> payer.gatewayUserId == req.telegram.value)
           && TableAnswers(before, after, req, payer, reply, a)
    else after == before && a == Some(UnresolvedAnswer(req))
  }

  /** A call for an order that has no row yet: refused before anything is written, or one row more,
      with the link getLink gives for it. */
  ghost predicate EndsNew(cfg: Config, table: seq<Row>, before: seq<Payment>, after: seq<Payment>, req: Request, rateBps: int,
                          now: Time, idTaken: bool, reply: GatewayReply, a: Option<Answer>) {
    if !Priced(req, rateBps) then after == before && a == Some(InvalidAmount)
    else if !Affordable(cfg, req, rateBps) then after == before && a == Some(AmountTooLarge)
    else if !Resolvable(cfg.rules, table, req) then after == before && a == Some(UnresolvedAnswer(req))
    else if idTaken then after == before && a == Some(RowDisappeared)
    else |after| == |before| + 1 && after[..|before|] == before && Told(reply, a) && IssuedNew(after[|before|], req, rateBps, now, reply)
  }

  /** A row just created and already answered by getLink, under the requester's own payer. */
  ghost predicate IssuedNew(q: Payment, req: Request, rateBps: int, now: Time, reply: GatewayReply) {
    && (req.telegram.Some? ==> q.payer.kind == TelegramUser && q.payer.gatewayUserId == req.telegram.value)
    && (req.telegram.None? ==> q.payer.kind == OrderFallback)
    && Fees.CalculateFee(req.amount, rateBps).Some?
    && Issued(NewRow(req, Fees.CalculateFee(req.amount, rateBps).value, q.payer, now), q, q.payer, reply)
  }

  /** A call that finds no row to lock. */
  lemma NoRow(before: seq<Payment>, after: seq<Payment>, req: Request, reply: GatewayReply, a: Option<Answer>)
    requires RowOf(before, req.order).None?
    requires exists payer: Payer :: TableAnswers(before, after, req, payer, reply, a)
    ensures after == before && a == Some(RowDisappeared)
  {
    forall i | 0 <= i < |before| ensures after[i] == before[i] {
      assert before[i].orderId != req.order;
    }
  }

  lemma NewAnswered(before: seq<Payment>, middle: seq<Payment>, after: seq<Payment>, req: Request, rateBps: int, payer: Payer,
                    now: Time, reply: GatewayReply, a: Option<Answer>)
    requires RowOf(before, req.order).None? && Fees.CalculateFee(req.amount, rateBps).Some?
    requires payer.kind == KindOf(req) && (req.telegram.Some? ==> payer.gatewayUserId == req.telegram.value)
    requires middle == before + [NewRow(req, Fees.CalculateFee(req.amount, rateBps).value, payer, now)]
    requires TableAnswers(middle, after, req, payer, reply, a)
    ensures |after| == |before| + 1 && after[..|before|] == before && Told(reply, a) && IssuedNew(after[|before|], req, rateBps, now, reply)
  {
    forall i | 0 <= i < |before| ensures after[i] == before[i] {
      assert middle[i] == before[i] && before[i].orderId != req.order;
    }
    var p := middle[|before|];
    assert Owed(p, req) && Charged(p, req, payer) == payer;
    assert Answers(p, after[|before|], req, payer, reply, a);
  }

  /** The amount and the rate in force have a fee. */
  ghost predicate Priced(req: Request, rateBps: int) {
    req.amount > 0 && 0 <= rateBps <= 10_000
  }

  /** Amount and fee together stay within the configured maximum. */
  ghost predicate Affordable(cfg: Config, req: Request, rateBps: int) {
    Priced(req, rateBps) && Fees.CalculateFee(req.amount, rateBps).Some?
    && Fees.CalculateFee(req.amount, rateBps).value.payable <= cfg.maxAmount
  }

  lemma MappedResolvable(rules: Rules, table: seq<Row>, req: Request)
    requires TableOk(rules, table) && Lookup(table, KeyOf(req)).Some?
    ensures Resolvable(rules, table, req)
  {
    if req.telegram.Some? {
      MappedTelegram(rules, table, req.telegram.value);
    }
  }

  lemma RowAnswers(cfg: Config, w: World, c: nat, req: Request, payer: Payer, reply: GatewayReply, id: nat)
    requires Reachable(cfg, w) && c in w.calls && w.calls[c] == Call(req, Locking(payer))
    requires RowOf(RowsOf(w.flows), req.order) == Some(id)
    ensures var p := w.flows[id].row;
      && (Refusal(p, req, payer).Some? ==> !Owed(p, req) && Answers(p, p, req, payer, reply, Refusal(p, req, payer)))
      && (Refusal(p, req, payer).None? ==>
            && Owed(p, req)
            && (reply.Died? ==> Answers(p, p, req, payer, reply, None))
            && (!reply.Died? ==>
                  && Linked(p, payer, reply).payer == Charged(p, req, payer)
                  && (Charged(p, req, payer) != p.payer <==> Reconcile(p, payer, LiveLink(p)).Adopt?)
                  && Answers(p, Linked(p, payer, reply), req, payer, reply, Some(LinkAnswer(reply)))))
  {
    ReachableInv(cfg, w);
    assert CallOk(cfg, w.identities, w.calls[c]);
    assert RowOk(cfg, w.identities, w.flows[id].row);
    RefusalByColumns(cfg, w.identities, w.flows[id].row, req, payer);
  }

  lemma OneRowAnswers(before: seq<Payment>, id: nat, q: Payment, req: Request, payer: Payer, reply: GatewayReply, a: Option<Answer>)
    requires RowOf(before, req.order) == Some(id) && Answers(before[id], q, req, payer, reply, a)
    requires forall i | 0 <= i < |before| && before[i].orderId == req.order :: i == id
    ensures TableAnswers(before, before[id := q], req, payer, reply, a)
  {
  }

  /** What the locked section owes the call, the table and the trail. */
  lemma LockedAnswers(cfg: Config, w: World, c: nat, req: Request, payer: Payer, reply: GatewayReply, id: nat)
    requires Reachable(cfg, w) && c in w.calls && w.calls[c] == Call(req, Locking(payer))
    requires RowOf(RowsOf(w.flows), req.order) == Some(id)
    ensures var rows, p := RowsOf(w.flows), w.flows[id].row;
      && (Refusal(p, req, payer).Some? ==>
            !Owed(p, req) && TableAnswers(rows, rows, req, payer, reply, Refusal(p, req, payer)))
      && (Refusal(p, req, payer).None? && reply.Died? ==> TableAnswers(rows, rows, req, payer, reply, None))
      && (Refusal(p, req, payer).None? && !reply.Died? ==>
            var q := Linked(p, payer, reply);
            && TableAnswers(rows, rows[id := q], req, payer, reply, Some(LinkAnswer(reply)))
            && Logged(w.events, w.events + AdoptEvents(p, payer, id) + [LinkEvent(reply, id)], p, q, reply, id))
  {
    var rows, p := RowsOf(w.flows), w.flows[id].row;
    ReachableInv(cfg, w);
    RowAnswers(cfg, w, c, req, payer, reply, id);
    if Refusal(p, req, payer).Some? {
      OneRowAnswers(rows, id, p, req, payer, reply, Refusal(p, req, payer));
      assert rows[id := p] == rows;
    } else if reply.Died? {
      OneRowAnswers(rows, id, p, req, payer, reply, None);
      assert rows[id := p] == rows;
    } else {
      OneRowAnswers(rows, id, Linked(p, payer, reply), req, payer, reply, Some(LinkAnswer(reply)));
    }
  }

  function PriceError(cfg: Config, req: Request, rateBps: int): (a: Answer) {
    if Fees.CalculateFee(req.amount, rateBps).None? then InvalidAmount else AmountTooLarge
  }

  datatype Ensured = RowCreated(payer: Payer) | RowExists | EnsureRefused(answer: Answer)

  /** The last answer of a reachable state, if it is a URL, is on the order's row. */
  lemma AnswerServed(cfg: Config, w: World, rows: seq<Payment>, a: Option<Answer>, req: Request)
    requires Reachable(cfg, w) && rows == RowsOf(w.flows)
    requires a.Some? ==> |w.answers| > 0 && w.answers[|w.answers| - 1] == Answered(req, a.value)
    ensures a.Some? && a.value.Url? ==> exists i | 0 <= i < |rows| :: Serves(rows[i], req, a.value.url)
  {
    ReachableInv(cfg, w);
    if a.Some? && a.value.Url? {
      assert AnswerOk(w.flows, w.answers[|w.answers| - 1]);
      var i :| 0 <= i < |w.flows| && Serves(w.flows[i].row, req, a.value.url);
      assert Serves(rows[i], req, a.value.url);
    }
  }

  class PaymentDesk {
    const cfg: Config
    var identities: seq<Row>
    var rows: seq<Payment>
    var events: seq<Event>
    ghost var world: World

    ghost predicate Valid()
      reads this
    {
      Reachable(cfg, world) && Mirrors(world, identities, rows, events)
    }

    /** The n-th candidate was inserted for the call, which goes on with it. */
    ghost predicate Gained(c: nat, req: Request, money: Option<Money>, before: seq<Row>, w: World, n: nat, p: Progress)
      reads this
    {
      && Usable(cfg.rules, before, KeyOf(req), n)
      && identities == before + [Attempted(cfg.rules, KeyOf(req), n).value]
      && p == Resolved(|before|)
      && Stands(w, world, c, req, Onwards(money, PayerFor(req, identities, |before|)))
    }

    constructor (cfg: Config)
      ensures Valid() && this.cfg == cfg && rows == [] && identities == [] && events == []
      ensures world == World([], [], [], map[], [], 0)
    {
      this.cfg := cfg;
      identities, rows, events := [], [], [];
      world := World([], [], [], map[], [], 0);
      Runs.InitReachable(Start(), Steps(cfg), World([], [], [], map[], [], 0));
    }

    ghost method Commit(a: Action)
      requires Reachable(cfg, world) && Enabled(cfg, world, a)
      requires Mirrors(Apply(cfg, world, a), identities, rows, events)
      modifies this`world
      ensures Valid() && world == Apply(cfg, old(world), a)
    {
      Runs.StepReachable(Start(), Steps(cfg), world, Apply(cfg, world, a));
      world := Apply(cfg, world, a);
    }

    /** One transaction of the resolver. */
    method ResolveStep(c: nat, req: Request, ghost money: Option<Money>, probe: Probe) returns (p: Progress)
      requires Valid() && c in world.calls && world.calls[c] == Call(req, Resolving(money, probe))
      modifies this
      ensures Valid() && rows == old(rows)
      ensures Resolves(old(world), world, c, req, money, p)
      ensures p == Advance(cfg.rules, old(identities), KeyOf(req), probe)
      ensures identities == TableAfter(cfg.rules, old(identities), KeyOf(req), probe)
      ensures events == old(events) + ResolveEvents(old(identities), identities, p)
    {
      var key := KeyOf(req);
      var before := identities;
      ResolveEffect(cfg, world, c, req, money, probe);
      match probe {
        case Look =>
          p := Looked(cfg.rules, identities, key);
        case Put(n) =>
          p := Inserted(cfg.rules, identities, key, n);
          if p.Resolved? {
            identities := identities + [Attempted(cfg.rules, key, n).value];
          }
        case Again(n) =>
          p := LookedAgain(identities, key, n);
      }
      events := events + ResolveEvents(before, identities, p);
      Commit(Resolve(c));
    }

    /** One turn of the insert loop for an order that is not mapped. */
    method Attempt(c: nat, req: Request, ghost money: Option<Money>, n: nat) returns (p: Progress)
      requires Valid() && Lookup(identities, KeyOf(req)).None? && req.telegram.None?
      requires c in world.calls && world.calls[c] == Call(req, Resolving(money, Put(n)))
      modifies this
      ensures Valid() && rows == old(rows)
      ensures p.Resolved? <==> Usable(cfg.rules, old(identities), KeyOf(req), n)
      ensures p.Resolved? ==> Gained(c, req, money, old(identities), old(world), n, p)
      ensures !p.Resolved? ==> identities == old(identities) && p == NextAttempt(n)
      ensures p.Going? ==> Stands(old(world), world, c, req, Resolving(money, p.probe))
      ensures p.Exhausted? ==> Over(old(world), world, c, req, IdentityUnavailable)
    {
      OrderPath(cfg.rules, identities, req.order, n);
      ghost var start := world;
      p := ResolveStep(c, req, money, Put(n));
      if p.Going? && p.probe == Again(n) {
        ghost var refused := world;
        p := ResolveStep(c, req, money, Again(n));
        Later(start, refused, world, c, req, Resolving(money, Again(n)));
      }
    }

    /** _resolve_order_hmac after its lookup: the first usable candidate of the order is
        inserted, if there is one among the first 10,000. */
    method Allocate(c: nat, req: Request, ghost money: Option<Money>) returns (p: Progress, ghost n: nat)
      requires Valid() && Lookup(identities, KeyOf(req)).None? && req.telegram.None?
      requires c in world.calls && world.calls[c] == Call(req, Resolving(money, Put(0)))
      modifies this
      ensures Valid() && rows == old(rows)
      ensures p.Resolved? || p.Exhausted?
      ensures p.Resolved? ==>
                && n < MAX_DERIVATION_ATTEMPTS
                && FirstUsable(cfg.rules, old(identities), KeyOf(req), n)
                && Gained(c, req, money, old(identities), old(world), n, p)
      ensures p.Exhausted? ==>
                && identities == old(identities)
                && (forall m: nat | m < MAX_DERIVATION_ATTEMPTS :: !Usable(cfg.rules, identities, KeyOf(req), m))
                && Over(old(world), world, c, req, IdentityUnavailable)
    {
      n := 0;
      var attempt: nat := 0;
      while true
        invariant Valid() && rows == old(rows) && identities == old(identities)
        invariant attempt < MAX_DERIVATION_ATTEMPTS
        invariant Stands(old(world), world, c, req, Resolving(money, Put(attempt)))
        invariant forall m: nat | m < attempt :: !Usable(cfg.rules, identities, KeyOf(req), m)
        decreases MAX_DERIVATION_ATTEMPTS - attempt
      {
        ghost var before := world;
        p := Attempt(c, req, money, attempt);
        Later(old(world), before, world, c, req, Resolving(money, Put(attempt)));
        if p.Resolved? {
          n := attempt;
          return;
        }
        if p.Exhausted? {
          return;
        }
        attempt := attempt + 1;
      }
    }

    /** The call has the identity of its own key, which was only read if it existed. */
    ghost predicate Identified(w: World, before: seq<Row>, c: nat, req: Request, money: Option<Money>, payer: Payer)
      reads this
    {
      && Stands(w, world, c, req, Onwards(money, payer))
      && payer.identity < |identities| && identities[payer.identity].key == KeyOf(req)
      && payer == PayerFor(req, identities, payer.identity)
      && (Lookup(before, KeyOf(req)).Some? ==> identities == before)
    }

    /** _resolve_telegram_raw: refused only for the reserved id or an id out of range. */
    method ResolveTelegram(c: nat, req: Request, ghost money: Option<Money>) returns (r: Option<Payer>)
      requires Valid() && c in world.calls && world.calls[c] == Call(req, Resolving(money, Look)) && req.telegram.Some?
      modifies this
      ensures Valid() && rows == old(rows)
      ensures r.Some? <==> TelegramRange(req.telegram.value) && req.telegram != cfg.rules.reserved
      ensures r.Some? ==> Identified(old(world), old(identities), c, req, money, r.value)
      ensures r.Some? ==> r.value.gatewayUserId == req.telegram.value
      ensures r.None? ==> identities == old(identities) && Over(old(world), world, c, req, UnresolvedAnswer(req))
      ensures r.None? ==> events == old(events) + if 1 <= req.telegram.value < 0x10_0000_0000_0000 then [Event(IdentityCollision, None)] else []
    {
      ReachableInv(cfg, world);
      TelegramPath(cfg.rules, identities, req.telegram.value);
      ghost var start := world;
      var p := ResolveStep(c, req, money, Look);
      if p.Going? {
        ghost var looked := world;
        var payer := InsertTelegram(c, req, money);
        Later(start, looked, world, c, req, Resolving(money, Put(0)));
        return Some(payer);
      }
      if p.Resolved? {
        assert identities[p.id] == Row(KeyOf(req), req.telegram.value);
        return Some(PayerFor(req, identities, p.id));
      }
      return None;
    }

    /** The one insert of a Telegram user who is not mapped yet. */
    method InsertTelegram(c: nat, req: Request, ghost money: Option<Money>) returns (payer: Payer)
      requires Valid() && c in world.calls && world.calls[c] == Call(req, Resolving(money, Put(0))) && req.telegram.Some?
      requires TelegramRange(req.telegram.value) && Lookup(identities, KeyOf(req)).None?
      modifies this
      ensures Valid() && rows == old(rows)
      ensures identities == old(identities) + [Row(KeyOf(req), req.telegram.value)]
      ensures payer == PayerFor(req, identities, |old(identities)|)
      ensures Stands(old(world), world, c, req, Onwards(money, payer))
    {
      ReachableInv(cfg, world);
      TelegramPath(cfg.rules, identities, req.telegram.value);
      var p := ResolveStep(c, req, money, Put(0));
      payer := PayerFor(req, identities, p.id);
    }

    /** _resolve_order_hmac: refused only when no candidate is left. */
    method ResolveOrder(c: nat, req: Request, ghost money: Option<Money>) returns (r: Option<Payer>)
      requires Valid() && c in world.calls && world.calls[c] == Call(req, Resolving(money, Look)) && req.telegram.None?
      modifies this
      ensures Valid() && rows == old(rows)
      ensures r.Some? ==> Identified(old(world), old(identities), c, req, money, r.value)
      ensures r.None? <==> Lookup(old(identities), KeyOf(req)).None?
                           && forall n: nat | n < MAX_DERIVATION_ATTEMPTS :: !Usable(cfg.rules, old(identities), KeyOf(req), n)
      ensures r.None? ==> identities == old(identities) && Over(old(world), world, c, req, IdentityUnavailable)
    {
      ghost var start := world;
      var p := ResolveStep(c, req, money, Look);
      if p.Going? {
        ghost var looked, n := world, 0;
        p, n := Allocate(c, req, money);
        Later(start, looked, world, c, req, Resolving(money, Put(0)));
      }
      if p.Resolved? {
        r := Some(PayerFor(req, identities, p.id));
      } else {
        r := None;
      }
    }

    /** resolve_payer_identity. */
    method ResolvePayer(c: nat, req: Request, ghost money: Option<Money>) returns (r: Option<Payer>)
      requires Valid() && c in world.calls && world.calls[c] == Call(req, Resolving(money, Look))
      modifies this
      ensures Valid() && rows == old(rows)
      ensures r.Some? <==> Resolvable(cfg.rules, old(identities), req)
      ensures r.Some? && req.telegram.Some? ==> r.value.gatewayUserId == req.telegram.value
      ensures r.Some? ==> Identified(old(world), old(identities), c, req, money, r.value)
      ensures r.None? ==> identities == old(identities) && Over(old(world), world, c, req, UnresolvedAnswer(req))
    {
      if req.telegram.Some? {
        r := ResolveTelegram(c, req, money);
      } else {
        r := ResolveOrder(c, req, money);
      }
    }

    /** The INSERT of _ensure_payment_row; false when the order or the random gateway order
        id is taken. */
    method InsertPayment(c: nat, req: Request, money: Money, payer: Payer, now: Time, idTaken: bool) returns (ok: bool)
      requires Valid() && c in world.calls && world.calls[c] == Call(req, Inserting(money, payer))
      modifies this
      ensures Valid() && identities == old(identities)
      ensures ok <==> RowOf(old(rows), req.order).None? && !idTaken
      ensures !ok ==> rows == old(rows) && events == old(events) && Stands(old(world), world, c, req, Resolving(None, Look))
      ensures ok ==> rows == old(rows) + [NewRow(req, money, payer, now)] && Stands(old(world), world, c, req, Locking(payer))
      ensures ok ==> events == old(events) + [Event(PaymentCreated, Some(|old(rows)|)), Event(FeeSnapshotted, Some(|old(rows)|))]
    {
      InsertEffect(cfg, world, c, req, money, payer, now, idTaken);
      var id := |rows|;
      ok := RowOf(rows, req.order).None? && !idTaken;
      if ok {
        rows := rows + [NewRow(req, money, payer, now)];
        events := events + [Event(PaymentCreated, Some(id)), Event(FeeSnapshotted, Some(id))];
      }
      Commit(InsertRow(c, now, idTaken));
    }

    /** _ensure_payment_row: the amount is checked and priced before any identity is made. */
    method EnsurePaymentRow(c: nat, req: Request, rateBps: int, now: Time, idTaken: bool) returns (r: Ensured)
      requires Valid() && c in world.calls && world.calls[c] == Call(req, Checking)
      modifies this
      ensures Valid()
      ensures RowOf(old(rows), req.order).Some? ==> r == RowExists && identities == old(identities)
      ensures RowOf(old(rows), req.order).None? ==>
                && (r == EnsureRefused(InvalidAmount) <==> !Priced(req, rateBps))
                && (r == EnsureRefused(AmountTooLarge) <==> Priced(req, rateBps) && !Affordable(cfg, req, rateBps))
                && (r == EnsureRefused(UnresolvedAnswer(req)) <==>
                      Affordable(cfg, req, rateBps) && !Resolvable(cfg.rules, old(identities), req))
                && (r.RowExists? <==> Affordable(cfg, req, rateBps) && Resolvable(cfg.rules, old(identities), req) && idTaken)
                && (r.RowCreated? <==> Affordable(cfg, req, rateBps) && Resolvable(cfg.rules, old(identities), req) && !idTaken)
      ensures r.RowExists? && RowOf(old(rows), req.order).None? ==> Resolvable(cfg.rules, identities, req)
      ensures r.RowCreated? ==>
                && Stands(old(world), world, c, req, Locking(r.payer))
                && Fees.CalculateFee(req.amount, rateBps).Some?
                && rows == old(rows) + [NewRow(req, Fees.CalculateFee(req.amount, rateBps).value, r.payer, now)]
      ensures r.RowCreated? ==> r.payer.kind == KindOf(req) && (req.telegram.Some? ==> r.payer.gatewayUserId == req.telegram.value)
      ensures !r.RowCreated? ==> rows == old(rows)
      ensures r.RowExists? ==> Stands(old(world), world, c, req, Resolving(None, Look))
      ensures r.EnsureRefused? ==> Over(old(world), world, c, req, r.answer)
      ensures r == EnsureRefused(InvalidAmount) || r == EnsureRefused(AmountTooLarge) ==> identities == old(identities)
    {
      if RowOf(rows, req.order).Some? {
        CheckEffect(cfg, world, c, req, rateBps);
        Commit(Check(c, rateBps));
        return RowExists;
      }
      ghost var start := world;
      var money := Price(c, req, rateBps);
      if money.None? {
        return EnsureRefused(PriceError(cfg, req, rateBps));
      }
      ghost var priced := world;
      r := PriceAndInsert(c, req, money.value, now, idTaken);
      Later(start, priced, world, c, req, Resolving(money, Look));
    }

    /** The fee of a new order, refused before anything is written. */
    method Price(c: nat, req: Request, rateBps: int) returns (money: Option<Money>)
      requires Valid() && c in world.calls && world.calls[c] == Call(req, Checking) && RowOf(rows, req.order).None?
      modifies this`world
      ensures Valid()
      ensures money.Some? <==> Affordable(cfg, req, rateBps)
      ensures money.Some? ==> money == Fees.CalculateFee(req.amount, rateBps) && Stands(old(world), world, c, req, Resolving(money, Look))
      ensures money.None? ==> Over(old(world), world, c, req, PriceError(cfg, req, rateBps))
    {
      CheckEffect(cfg, world, c, req, rateBps);
      Commit(Check(c, rateBps));
      money := Fees.CalculateFee(req.amount, rateBps);
      if money.Some? && money.value.payable > cfg.maxAmount {
        money := None;
      }
    }

    method PriceAndInsert(c: nat, req: Request, money: Money, now: Time, idTaken: bool) returns (r: Ensured)
      requires Valid() && c in world.calls && world.calls[c] == Call(req, Resolving(Some(money), Look))
      requires RowOf(rows, req.order).None?
      modifies this
      ensures Valid()
      ensures r.RowCreated? ==>
                Stands(old(world), world, c, req, Locking(r.payer)) && rows == old(rows) + [NewRow(req, money, r.payer, now)]
      ensures r.RowCreated? ==> r.payer.kind == KindOf(req) && (req.telegram.Some? ==> r.payer.gatewayUserId == req.telegram.value)
      ensures !r.RowCreated? ==> rows == old(rows)
      ensures r.EnsureRefused? <==> !Resolvable(cfg.rules, old(identities), req)
      ensures r.RowExists? <==> Resolvable(cfg.rules, old(identities), req) && idTaken
      ensures r.RowExists? ==> Resolvable(cfg.rules, identities, req)
      ensures r.RowExists? ==> Stands(old(world), world, c, req, Resolving(None, Look))
      ensures r.EnsureRefused? ==> r.answer == UnresolvedAnswer(req) && Over(old(world), world, c, req, r.answer)
    {
      ghost var start := world;
      var payer := ResolvePayer(c, req, Some(money));
      if payer.None? {
        return EnsureRefused(UnresolvedAnswer(req));
      }
      ghost var resolved := world;
      ReachableInv(cfg, world);
      MappedResolvable(cfg.rules, identities, req);
      var ok := InsertPayment(c, req, money, payer.value, now, idTaken);
      Later(start, resolved, world, c, req, Inserting(money, payer.value));
      if ok {
        return RowCreated(payer.value);
      }
      return RowExists;
    }

    /** The part of create_payment that holds the row lock. */
    method LockedSection(c: nat, req: Request, payer: Payer, reply: GatewayReply) returns (a: Option<Answer>)
      requires Valid() && c in world.calls && world.calls[c] == Call(req, Locking(payer)) && reply != Link("")
      modifies this
      ensures Valid() && identities == old(identities)
      ensures TableAnswers(old(rows), rows, req, payer, reply, a)
      ensures var found := RowOf(old(rows), req.order);
              found.Some? && Owed(old(rows)[found.value], req) ==>
                Logged(old(events), events, old(rows)[found.value], rows[found.value], reply, found.value)
      ensures a.Some? ==> Over(old(world), world, c, req, a.value) && Explained(old(events), events, a.value)
      ensures a.None? ==> world.calls == old(world).calls - {c} && world.answers == old(world).answers && events == old(events)
      ensures rows != old(rows) ==>
                && a.Some? && !reply.Died? && a.value == LinkAnswer(reply)
                && exists i | 0 <= i < |old(rows)| && RowOf(old(rows), req.order) == Some(i) ::
                     rows == old(rows)[i := Linked(old(rows)[i], payer, reply)]
    {
      var found := RowOf(rows, req.order);
      if found.None? {
        Commit(Lock(c, reply));
        return Some(RowDisappeared);
      }
      var id := found.value;
      LockedAnswers(cfg, world, c, req, payer, reply, id);
      if Refusal(rows[id], req, payer).Some? {
        var answer := Refuse(c, req, payer, reply, id);
        return Some(answer);
      }
      if reply.Died? {
        LinkEffect(cfg, world, c, req, payer, reply, id);
        Commit(Lock(c, reply));
        return None;
      }
      StoreLink(c, req, payer, reply, id);
      return Some(LinkAnswer(reply));
    }

    /** The locked section ends without a gateway call. */
    method Refuse(c: nat, req: Request, payer: Payer, reply: GatewayReply, id: nat) returns (answer: Answer)
      requires Valid() && c in world.calls && world.calls[c] == Call(req, Locking(payer)) && reply != Link("")
      requires RowOf(rows, req.order) == Some(id) && Refusal(rows[id], req, payer).Some?
      modifies this
      ensures Valid() && identities == old(identities) && rows == old(rows)
      ensures answer == Refusal(rows[id], req, payer).value
      ensures Over(old(world), world, c, req, answer) && Explained(old(events), events, answer)
    {
      answer := Refusal(rows[id], req, payer).value;
      RefusedEffect(cfg, world, c, req, payer, reply, id);
      events := events + RefusalEvents(answer, id);
      Commit(Lock(c, reply));
    }

    /** The gateway's answer is stored, under the adopted identity if there is one. */
    method StoreLink(c: nat, req: Request, payer: Payer, reply: GatewayReply, id: nat)
      requires Valid() && c in world.calls && world.calls[c] == Call(req, Locking(payer)) && reply != Link("")
      requires RowOf(rows, req.order) == Some(id) && Refusal(rows[id], req, payer).None? && !reply.Died?
      modifies this
      ensures Valid() && identities == old(identities)
      ensures rows == old(rows)[id := Linked(old(rows)[id], payer, reply)]
      ensures Over(old(world), world, c, req, LinkAnswer(reply))
      ensures events == old(events) + AdoptEvents(old(rows)[id], payer, id) + [LinkEvent(reply, id)]
    {
      LinkEffect(cfg, world, c, req, payer, reply, id);
      var payment := LinkColumns(rows[id], id, payer, reply);
      rows := rows[id := payment];
      Commit(Lock(c, reply));
    }

    method LinkColumns(row: Payment, id: nat, payer: Payer, reply: GatewayReply) returns (payment: Payment)
      requires !reply.Died?
      modifies this`events
      ensures payment == Linked(row, payer, reply)
      ensures events == old(events) + AdoptEvents(row, payer, id) + [LinkEvent(reply, id)]
    {
      payment := row;
      if Reconcile(payment, payer, LiveLink(payment)).Adopt? {
        payment := payment.(payer := payer);
        events := events + [Event(IdentityAdopted, Some(id))];
      }
      match reply {
        case Link(url) =>
          payment := payment.(status := LinkCreated, redirectUrl := Some(url), lastError := None);
          events := events + [Event(LinkIssued, Some(id))];
        case Refused(message) =>
          payment := payment.(status := GetLinkFailed, lastError := Some(GatewayError(message)));
          events := events + [Event(LinkFailed, Some(id))];
      }
    }

    /** create_payment once the row exists: the payer is resolved if this call did not
        create the row, then the locked section runs. */
    method Proceed(c: nat, req: Request, ensured: Ensured, reply: GatewayReply) returns (a: Option<Answer>)
      requires Valid() && c in world.calls && reply != Link("")
      requires ensured.RowCreated? ==> world.calls[c] == Call(req, Locking(ensured.payer))
      requires ensured.RowExists? ==> world.calls[c] == Call(req, Resolving(None, Look))
      requires !ensured.EnsureRefused?
      modifies this
      ensures Valid() && Ended(old(world), world, c, req, a)
      ensures ensured.RowCreated? ==> TableAnswers(old(rows), rows, req, ensured.payer, reply, a)
      ensures ensured.RowExists? ==> EndsIn(cfg.rules, old(identities), old(rows), rows, req, reply, a)
    {
      if ensured.RowCreated? {
        a := LockedSection(c, req, ensured.payer, reply);
        return;
      }
      a := ResolveAndLock(c, req, reply);
    }

    method ResolveAndLock(c: nat, req: Request, reply: GatewayReply) returns (a: Option<Answer>)
      requires Valid() && c in world.calls && world.calls[c] == Call(req, Resolving(None, Look)) && reply != Link("")
      modifies this
      ensures Valid() && Ended(old(world), world, c, req, a)
      ensures EndsIn(cfg.rules, old(identities), old(rows), rows, req, reply, a)
    {
      ghost var start, before := world, rows;
      var payer := ResolvePayer(c, req, None);
      if payer.None? {
        return Some(UnresolvedAnswer(req));
      }
      ghost var resolved := world;
      a := LockedSection(c, req, payer.value, reply);
      EndedLater(start, resolved, world, c, req, Locking(payer.value), a);
      assert TableAnswers(before, rows, req, payer.value, reply, a);
    }

    ghost method Begin(c: nat, req: Request)
      requires Valid() && c !in world.calls
      modifies this`world
      ensures Valid() && Stands(old(world), world, c, req, Checking)
    {
      Commit(Arrive(c, req));
    }

    /** create_payment: None when the process dies at the gateway. A URL it returns is the
        one on the order's row, for the requested amount and not another Telegram user's. */
    method CreatePayment(c: nat, req: Request, rateBps: int, now: Time, idTaken: bool, reply: GatewayReply) returns (a: Option<Answer>)
      requires Valid() && c !in world.calls && reply != Link("")
      modifies this
      ensures Valid() && Ended(old(world), world, c, req, a) && world.calls == old(world).calls
      ensures a.Some? && a.value.Url? ==> exists i | 0 <= i < |rows| :: Serves(rows[i], req, a.value.url)
      ensures RowOf(old(rows), req.order).Some? ==> EndsIn(cfg.rules, old(identities), old(rows), rows, req, reply, a)
      ensures RowOf(old(rows), req.order).None? ==>
                EndsNew(cfg, old(identities), old(rows), rows, req, rateBps, now, idTaken, reply, a)
    {
      ghost var start := world;
      Begin(c, req);
      ghost var begun := world;
      a := Serve(c, req, rateBps, now, idTaken, reply);
      EndedLater(start, begun, world, c, req, Checking, a);
      AnswerServed(cfg, world, rows, a, req);
    }

    method Serve(c: nat, req: Request, rateBps: int, now: Time, idTaken: bool, reply: GatewayReply) returns (a: Option<Answer>)
      requires Valid() && c in world.calls && world.calls[c] == Call(req, Checking) && reply != Link("")
      modifies this
      ensures Valid() && Ended(old(world), world, c, req, a)
      ensures RowOf(old(rows), req.order).Some? ==> EndsIn(cfg.rules, old(identities), old(rows), rows, req, reply, a)
      ensures RowOf(old(rows), req.order).None? ==>
                EndsNew(cfg, old(identities), old(rows), rows, req, rateBps, now, idTaken, reply, a)
    {
      ghost var start, before := world, rows;
      var ensured := EnsurePaymentRow(c, req, rateBps, now, idTaken);
      if ensured.EnsureRefused? {
        return Some(ensured.answer);
      }
      ghost var middle, table := world, rows;
      a := Proceed(c, req, ensured, reply);
      EndedLater(start, middle, world, c, req, middle.calls[c].pc, a);
      if RowOf(before, req.order).None? {
        if ensured.RowCreated? {
          NewAnswered(before, table, rows, req, rateBps, ensured.payer, now, reply, a);
        } else {
          NoRow(before, rows, req, reply, a);
        }
      }
    }
  }
}
