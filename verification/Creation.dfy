/** Idempotent payment creation (app/services/payments.py) as a state machine: any number
    of create calls interleave at their transaction boundaries, may die at any point, and
    share the tables with every other actor of the delivery protocol. */
module Creation {
  import opened Common
  import opened Rows
  import opened Identity
  import Fees
  import Delivery
  import Runs

  datatype Config = Config(rules: Rules, delivery: Delivery.Config, maxAmount: int)

  datatype Request = Request(order: string, amount: int, telegram: Option<int>)

  function KeyOf(req: Request): (k: Key) {
    if req.telegram.Some? then TelegramKey(req.telegram.value) else OrderKey(req.order)
  }

  function KindOf(req: Request): (t: IdentityType) {
    if req.telegram.Some? then TelegramUser else OrderFallback
  }

  /** The answer of create_payment, or the error it raises. */
  datatype Answer =
    | Url(url: string)
    | InvalidAmount
    | AmountTooLarge
    | IdentityCollided
    | IdentityUnavailable
    | OtherCustomer
    | OtherAmount
    | AlreadyVerified
    | UnderReview
    | GatewayFailed
    | RowDisappeared

  /** What the gateway answers to getLink: a non-empty URL, an error, or nothing because the
      process dies before it can commit. */
  datatype GatewayReply = Link(url: string) | Refused(message: string) | Died

  // ----- The locked section ------------------------------------------------------------------

  datatype Decision = Reuse | Adopt | Reject

  /** _reconcile_identity, for rows that carry a typed identity. */
  function Reconcile(p: Payment, payer: Payer, live: bool): (d: Decision) {
    if p.payer.identity == payer.identity then Reuse
    else if p.payer.kind == TelegramUser && payer.kind == OrderFallback then Reuse
    else if p.payer.kind == OrderFallback && payer.kind == TelegramUser then (if live then Reuse else Adopt)
    else Reject
  }

  predicate LiveLink(p: Payment) {
    || p.redirectUrl.Some?
    || p.verifiedAt.Some?
    || p.status in {LinkCreated, GatewayVerified, Pending, Accepted, ManualReview}
  }

  /** How the locked section ends without calling the gateway; None when it calls getLink. */
  function Refusal(p: Payment, req: Request, payer: Payer): (a: Option<Answer>) {
    if Reconcile(p, payer, LiveLink(p)).Reject? then Some(OtherCustomer)
    else if p.money.amount != req.amount then Some(OtherAmount)
    else if p.verifiedAt.Some? || p.status in {GatewayVerified, Pending, Accepted} then Some(AlreadyVerified)
    else if p.status == ManualReview then Some(UnderReview)
    else if p.status == LinkCreated && p.redirectUrl.Some? && p.redirectUrl.value != "" then Some(Url(p.redirectUrl.value))
    else None
  }

  function RefusalEvents(a: Answer, id: nat): (es: seq<Event>) {
    match a
    case OtherCustomer => [Event(CustomerMismatch, Some(id))]
    case OtherAmount => [Event(AmountMismatch, Some(id))]
    case _ => []
  }

  /** The payer the link is issued under. */
  function Stamped(p: Payment, payer: Payer): (q: Payer) {
    if Reconcile(p, payer, LiveLink(p)).Adopt? then payer else p.payer
  }

  function AdoptEvents(p: Payment, payer: Payer, id: nat): (es: seq<Event>) {
    if Reconcile(p, payer, LiveLink(p)).Adopt? then [Event(IdentityAdopted, Some(id))] else []
  }

  /** find_safe_replay_redirect_url. */
  function FindSafeReplay(rows: seq<Payment>, req: Request): (r: Option<string>) {
    var found := RowOf(rows, req.order);
    if found.None? then None
    else
      var p := rows[found.value];
      if p.status != LinkCreated || p.redirectUrl.None? || p.redirectUrl.value == "" then None
      else if p.money.amount != req.amount then None
      else if req.telegram.Some? && !(p.payer.kind == TelegramUser && p.payer.gatewayUserId == req.telegram.value) then None
      else if req.telegram.None? && p.payer.kind != OrderFallback then None
      else Some(p.redirectUrl.value)
  }

  function RowOf(rows: seq<Payment>, order: string): (r: Option<nat>)
    ensures r.Some? ==> r.value < |rows| && rows[r.value].orderId == order
    ensures r.None? ==> forall i | 0 <= i < |rows| :: rows[i].orderId != order
  {
    if rows == [] then None
    else
      var n := |rows| - 1;
      if rows[n].orderId == order then Some(n) else RowOf(rows[..n], order)
  }

  function NewRow(req: Request, money: Money, payer: Payer, now: Time): (p: Payment)
    ensures Fresh(p) && p.orderId == req.order && p.createdAt == now && p.money == money && p.payer == payer
  {
    Payment(req.order, now, money, payer, Created, None, None, None, None, None, 0, None, None, None, None, None, None, None, None)
  }

  // ----- The state machine ------------------------------------------------------------------------

  /** Where a call stands between two of its transactions. */
  datatype Pc =
    | Checking
    | Resolving(money: Option<Money>, probe: Probe)
    | Inserting(newMoney: Money, newPayer: Payer)
    | Locking(payer: Payer)

  datatype Call = Call(req: Request, pc: Pc)

  datatype Answered = Answered(req: Request, answer: Answer)

  /** `flows` is the payments table with its delivery history, `links` counts getLink calls. */
  datatype World = World(
    identities: seq<Row>,
    flows: seq<Delivery.Flow>,
    events: seq<Event>,
    calls: map<nat, Call>,
    answers: seq<Answered>,
    links: nat)

  datatype Action =
    | Arrive(call: nat, req: Request)
    | Check(call: nat, rateBps: int)
    | Resolve(call: nat)
    | InsertRow(call: nat, now: Time, idTaken: bool)   // idTaken: the random gateway order id collided
    | Lock(call: nat, reply: GatewayReply)
    | Crash(call: nat)
    | Elsewhere(payment: nat, act: Delivery.Action)

  ghost predicate Enabled(cfg: Config, w: World, a: Action) {
    match a
    case Arrive(c, _) => c !in w.calls
    case Check(c, _) => c in w.calls && w.calls[c].pc.Checking?
    case Resolve(c) => c in w.calls && w.calls[c].pc.Resolving?
    case InsertRow(c, _, _) => c in w.calls && w.calls[c].pc.Inserting?
    case Lock(c, reply) => c in w.calls && w.calls[c].pc.Locking? && reply != Link("")
    case Crash(c) => c in w.calls
    case Elsewhere(i, act) =>
      i < |w.flows| && !act.CreateLink? && !act.FailLink? && Delivery.Enabled(cfg.delivery, w.flows[i], act)
  }

  ghost function RowsOf(flows: seq<Delivery.Flow>): (rows: seq<Payment>)
    ensures |rows| == |flows|
    ensures forall i | 0 <= i < |flows| :: rows[i] == flows[i].row
  {
    seq(|flows|, i requires 0 <= i < |flows| => flows[i].row)
  }

  ghost function Goto(w: World, c: nat, pc: Pc): (v: World)
    requires c in w.calls
  {
    w.(calls := w.calls[c := w.calls[c].(pc := pc)])
  }

  ghost function Finish(w: World, c: nat, answer: Answer): (v: World)
    requires c in w.calls
  {
    w.(calls := w.calls - {c}, answers := w.answers + [Answered(w.calls[c].req, answer)])
  }

  ghost function DoCheck(cfg: Config, w: World, c: nat, rateBps: int): (v: World)
    requires c in w.calls
  {
    var req := w.calls[c].req;
    var money := Fees.CalculateFee(req.amount, rateBps);
    if RowOf(RowsOf(w.flows), req.order).Some? then Goto(w, c, Resolving(None, Look))
    else if money.None? then Finish(w, c, InvalidAmount)
    else if money.value.payable > cfg.maxAmount then Finish(w, c, AmountTooLarge)
    else Goto(w, c, Resolving(money, Look))
  }

  function PayerFor(req: Request, table: seq<Row>, id: nat): (p: Payer)
    requires id < |table|
  {
    Payer(id, KindOf(req), table[id].gatewayUserId)
  }

  function ResolveEvents(before: seq<Row>, after: seq<Row>, p: Progress): (es: seq<Event>) {
    if |after| > |before| then [Event(IdentityCreated, None)]
    else if p.Collision? then [Event(IdentityCollision, None)]
    else []
  }

  ghost function DoResolve(cfg: Config, w: World, c: nat): (v: World)
    requires c in w.calls && w.calls[c].pc.Resolving?
  {
    var req, pc := w.calls[c].req, w.calls[c].pc;
    var table := TableAfter(cfg.rules, w.identities, KeyOf(req), pc.probe);
    var p := Advance(cfg.rules, w.identities, KeyOf(req), pc.probe);
    var u := w.(identities := table, events := w.events + ResolveEvents(w.identities, table, p));
    match p
    case Going(probe) => Goto(u, c, pc.(probe := probe))
    case Resolved(id) =>
      if pc.money.Some? then Goto(u, c, Inserting(pc.money.value, PayerFor(req, table, id)))
      else Goto(u, c, Locking(PayerFor(req, table, id)))
    case Collision => Finish(u, c, IdentityCollided)
    case Exhausted => Finish(u, c, IdentityUnavailable)
    case OutOfRange => Finish(u, c, IdentityUnavailable)
  }

  ghost function DoInsert(w: World, c: nat, now: Time, idTaken: bool): (v: World)
    requires c in w.calls && w.calls[c].pc.Inserting?
  {
    var req, pc := w.calls[c].req, w.calls[c].pc;
    if RowOf(RowsOf(w.flows), req.order).Some? || idTaken then Goto(w, c, Resolving(None, Look))
    else
      var id := |w.flows|;
      Goto(w.(flows := w.flows + [Delivery.Flow(NewRow(req, pc.newMoney, pc.newPayer, now), map[], [], [], 0, 0, 0)],
              events := w.events + [Event(PaymentCreated, Some(id)), Event(FeeSnapshotted, Some(id))]),
           c, Locking(pc.newPayer))
  }

  /** The row after getLink answered. */
  function Linked(p: Payment, payer: Payer, reply: GatewayReply): (q: Payment)
    requires !reply.Died?
  {
    var r := p.(payer := Stamped(p, payer));
    match reply
    case Link(url) => r.(status := LinkCreated, redirectUrl := Some(url), lastError := None)
    case Refused(message) => r.(status := GetLinkFailed, lastError := Some(GatewayError(message)))
  }

  function LinkEvent(reply: GatewayReply, id: nat): (e: Event)
    requires !reply.Died?
  {
    Event(if reply.Link? then LinkIssued else LinkFailed, Some(id))
  }

  ghost function DoLock(w: World, c: nat, reply: GatewayReply): (v: World)
    requires c in w.calls && w.calls[c].pc.Locking? && reply != Link("")
  {
    var req, payer := w.calls[c].req, w.calls[c].pc.payer;
    var found := RowOf(RowsOf(w.flows), req.order);
    if found.None? then Finish(w, c, RowDisappeared)
    else
      var id := found.value;
      var p := w.flows[id].row;
      var refusal := Refusal(p, req, payer);
      if refusal.Some? then
        Finish(w.(events := w.events + RefusalEvents(refusal.value, id)), c, refusal.value)
      else
        var u := w.(links := w.links + 1);
        if reply.Died? then u.(calls := u.calls - {c})
        else
          Finish(u.(flows := u.flows[id := u.flows[id].(row := Linked(p, payer, reply))],
                    events := u.events + AdoptEvents(p, payer, id) + [LinkEvent(reply, id)]),
                 c, if reply.Link? then Url(reply.url) else GatewayFailed)
  }

  ghost function Apply(cfg: Config, w: World, a: Action): (v: World)
    requires Enabled(cfg, w, a)
  {
    match a
    case Arrive(c, req) => w.(calls := w.calls[c := Call(req, Checking)])
    case Check(c, rate) => DoCheck(cfg, w, c, rate)
    case Resolve(c) => DoResolve(cfg, w, c)
    case InsertRow(c, now, idTaken) => DoInsert(w, c, now, idTaken)
    case Lock(c, reply) => DoLock(w, c, reply)
    case Crash(c) => w.(calls := w.calls - {c})
    case Elsewhere(i, act) => w.(flows := w.flows[i := Delivery.Apply(cfg.delivery, w.flows[i], act)])
  }

  ghost predicate Init(w: World) {
    w == World([], [], [], map[], [], 0)
  }

  ghost predicate Next(cfg: Config, w: World, v: World) {
    exists a :: Enabled(cfg, w, a) && v == Apply(cfg, w, a)
  }

  ghost function Start(): (p: World -> bool) {
    w => Init(w)
  }

  ghost function Steps(cfg: Config): (p: (World, World) -> bool) {
    (w: World, v: World) => Next(cfg, w, v)
  }

  ghost predicate IsRun(cfg: Config, run: seq<World>) {
    Runs.IsRun(Start(), Steps(cfg), run)
  }

  ghost predicate Reachable(cfg: Config, w: World) {
    Runs.Reachable(Start(), Steps(cfg), w)
  }

  // ----- The invariant -----------------------------------------------------------------------------

  /** The payer on a row is an identity of the table, of the row's own kind. */
  ghost predicate PayerOk(ids: seq<Row>, payer: Payer, order: string) {
    && payer.identity < |ids|
    && ids[payer.identity].gatewayUserId == payer.gatewayUserId
    && (payer.kind == TelegramUser ==> ids[payer.identity].key.TelegramKey?)
    && (payer.kind == OrderFallback ==> ids[payer.identity].key == OrderKey(order))
  }

  ghost predicate RowOk(cfg: Config, ids: seq<Row>, p: Payment) {
    && Delivery.RowInv(p)
    && PayerOk(ids, p.payer, p.orderId)
    && Fees.Stored(p.money, cfg.maxAmount)
    && p.redirectUrl != Some("")
  }

  /** A payer a call has resolved is its own key's identity. */
  ghost predicate Holds(ids: seq<Row>, req: Request, payer: Payer) {
    payer.identity < |ids| && ids[payer.identity].key == KeyOf(req) && payer == PayerFor(req, ids, payer.identity)
  }

  ghost predicate MoneyOk(cfg: Config, req: Request, m: Money) {
    Fees.Stored(m, cfg.maxAmount) && m.amount == req.amount
  }

  ghost predicate CallOk(cfg: Config, ids: seq<Row>, call: Call) {
    match call.pc
    case Checking => true
    case Resolving(m, probe) =>
      && ProbeOk(cfg.rules, ids, KeyOf(call.req), probe)
      && (m.Some? ==> MoneyOk(cfg, call.req, m.value))
    case Inserting(m, payer) => MoneyOk(cfg, call.req, m) && Holds(ids, call.req, payer)
    case Locking(payer) => Holds(ids, call.req, payer)
  }

  /** The row carries this link, for this amount, and not for another Telegram user. */
  ghost predicate Serves(p: Payment, req: Request, url: string) {
    && p.orderId == req.order
    && p.redirectUrl == Some(url)
    && p.money.amount == req.amount
    && (req.telegram.Some? && p.payer.kind == TelegramUser ==> p.payer.gatewayUserId == req.telegram.value)
  }

  ghost predicate AnswerOk(flows: seq<Delivery.Flow>, a: Answered) {
    a.answer.Url? ==> exists i | 0 <= i < |flows| :: Serves(flows[i].row, a.req, a.answer.url)
  }

  ghost predicate RowsOk(cfg: Config, ids: seq<Row>, flows: seq<Delivery.Flow>) {
    && (forall i | 0 <= i < |flows| :: RowOk(cfg, ids, flows[i].row))
    && (forall i, j | 0 <= i < j < |flows| :: flows[i].row.orderId != flows[j].row.orderId)
  }

  ghost predicate CallsOk(cfg: Config, ids: seq<Row>, calls: map<nat, Call>) {
    forall c | c in calls :: CallOk(cfg, ids, calls[c])
  }

  ghost predicate AnswersOk(flows: seq<Delivery.Flow>, answers: seq<Answered>) {
    forall k | 0 <= k < |answers| :: AnswerOk(flows, answers[k])
  }

  ghost predicate Inv(cfg: Config, w: World) {
    && TableOk(cfg.rules, w.identities)
    && RowsOk(cfg, w.identities, w.flows)
    && CallsOk(cfg, w.identities, w.calls)
    && AnswersOk(w.flows, w.answers)
  }

  // ----- Every step keeps it -----------------------------------------------------------------------

  /** A row keeps its order and amounts, a Telegram payer for good, and everything creation
      wrote once it carries a link. */
  ghost predicate RowGrown(p: Payment, q: Payment) {
    && SameCharge(p, q)
    && (p.payer.kind == TelegramUser ==> q.payer == p.payer)
    && (p.redirectUrl.Some? ==> SameIssue(p, q))
  }

  ghost predicate Grown(before: seq<Delivery.Flow>, after: seq<Delivery.Flow>) {
    |before| <= |after| && forall i | 0 <= i < |before| :: RowGrown(before[i].row, after[i].row)
  }

  /** What one step owes the next. */
  ghost predicate Kept(cfg: Config, w: World, v: World) {
    Inv(cfg, v) && Grown(w.flows, v.flows) && w.identities <= v.identities && w.answers <= v.answers
  }

  lemma AnswersGrow(before: seq<Delivery.Flow>, after: seq<Delivery.Flow>, answers: seq<Answered>)
    requires AnswersOk(before, answers) && Grown(before, after)
    ensures AnswersOk(after, answers)
  {
    forall k | 0 <= k < |answers| && answers[k].answer.Url? ensures AnswerOk(after, answers[k]) {
      var a := answers[k];
      assert AnswerOk(before, a);
      assert forall n | 0 <= n < |before| :: RowGrown(before[n].row, after[n].row);
      var i :| 0 <= i < |before| && Serves(before[i].row, a.req, a.answer.url);
      assert Serves(after[i].row, a.req, a.answer.url);
    }
  }

  /** A longer identity table disturbs nobody. */
  lemma IdentitiesGrow(cfg: Config, ids: seq<Row>, longer: seq<Row>, flows: seq<Delivery.Flow>, calls: map<nat, Call>)
    requires ids <= longer && RowsOk(cfg, ids, flows) && CallsOk(cfg, ids, calls)
    ensures RowsOk(cfg, longer, flows) && CallsOk(cfg, longer, calls)
  {
    forall c | c in calls ensures CallOk(cfg, longer, calls[c]) {
      assert CallOk(cfg, ids, calls[c]);
      if calls[c].pc.Resolving? {
        ProbeStable(cfg.rules, ids, longer, KeyOf(calls[c].req), calls[c].pc.probe);
      }
    }
    forall i | 0 <= i < |flows| ensures RowOk(cfg, longer, flows[i].row) {
      assert RowOk(cfg, ids, flows[i].row);
    }
  }

  /** A call that ends with a good answer. */
  lemma FinishKeeps(cfg: Config, w: World, c: nat, answer: Answer)
    requires Inv(cfg, w) && c in w.calls && AnswerOk(w.flows, Answered(w.calls[c].req, answer))
    ensures Kept(cfg, w, Finish(w, c, answer))
  {
  }

  lemma GotoKeeps(cfg: Config, w: World, c: nat, pc: Pc)
    requires Inv(cfg, w) && c in w.calls && CallOk(cfg, w.identities, Call(w.calls[c].req, pc))
    ensures Kept(cfg, w, Goto(w, c, pc))
  {
  }

  /** The state once the resolver's transaction has committed, before the call goes on. */
  ghost function Committed(cfg: Config, w: World, c: nat): (u: World)
    requires c in w.calls && w.calls[c].pc.Resolving?
  {
    var key, probe := KeyOf(w.calls[c].req), w.calls[c].pc.probe;
    var table := TableAfter(cfg.rules, w.identities, key, probe);
    w.(identities := table, events := w.events + ResolveEvents(w.identities, table, Advance(cfg.rules, w.identities, key, probe)))
  }

  lemma CommittedKeeps(cfg: Config, w: World, c: nat)
    requires Inv(cfg, w) && c in w.calls && w.calls[c].pc.Resolving?
    ensures Kept(cfg, w, Committed(cfg, w, c))
    ensures var u, p := Committed(cfg, w, c), Advance(cfg.rules, w.identities, KeyOf(w.calls[c].req), w.calls[c].pc.probe);
            && (p.Resolved? ==> p.id < |u.identities| && Holds(u.identities, w.calls[c].req, PayerFor(w.calls[c].req, u.identities, p.id)))
            && (p.Going? ==> ProbeOk(cfg.rules, u.identities, KeyOf(w.calls[c].req), p.probe))
  {
    var key, probe := KeyOf(w.calls[c].req), w.calls[c].pc.probe;
    assert CallOk(cfg, w.identities, w.calls[c]);
    AdvanceKeepsTable(cfg.rules, w.identities, key, probe);
    AdvanceSpec(cfg.rules, w.identities, key, probe);
    IdentitiesGrow(cfg, w.identities, TableAfter(cfg.rules, w.identities, key, probe), w.flows, w.calls);
  }

  lemma KeptTwice(cfg: Config, w: World, u: World, v: World)
    requires Kept(cfg, w, u) && Kept(cfg, u, v) && u.flows == w.flows
    ensures Kept(cfg, w, v)
  {
  }

  lemma ResolveKeeps(cfg: Config, w: World, c: nat)
    requires Inv(cfg, w) && Enabled(cfg, w, Resolve(c))
    ensures Kept(cfg, w, Apply(cfg, w, Resolve(c)))
  {
    var req, pc, u := w.calls[c].req, w.calls[c].pc, Committed(cfg, w, c);
    assert CallOk(cfg, w.identities, w.calls[c]);
    CommittedKeeps(cfg, w, c);
    match Advance(cfg.rules, w.identities, KeyOf(req), pc.probe) {
    case Going(probe) => GotoKeeps(cfg, u, c, pc.(probe := probe));
    case Resolved(id) =>
      var payer := PayerFor(req, u.identities, id);
      GotoKeeps(cfg, u, c, if pc.money.Some? then Inserting(pc.money.value, payer) else Locking(payer));
    case Collision => FinishKeeps(cfg, u, c, IdentityCollided);
    case Exhausted => FinishKeeps(cfg, u, c, IdentityUnavailable);
    case OutOfRange => FinishKeeps(cfg, u, c, IdentityUnavailable);
    }
    KeptTwice(cfg, w, u, Apply(cfg, w, Resolve(c)));
  }

  lemma AppendKeepsRows(cfg: Config, ids: seq<Row>, flows: seq<Delivery.Flow>, f: Delivery.Flow)
    requires RowsOk(cfg, ids, flows) && RowOk(cfg, ids, f.row) && RowOf(RowsOf(flows), f.row.orderId).None?
    ensures RowsOk(cfg, ids, flows + [f]) && Grown(flows, flows + [f])
  {
    var rows := RowsOf(flows);
    forall i | 0 <= i < |flows| ensures flows[i].row.orderId != f.row.orderId {
      assert rows[i].orderId != f.row.orderId;
    }
  }

  lemma InsertKeeps(cfg: Config, w: World, c: nat, now: Time, idTaken: bool)
    requires Inv(cfg, w) && Enabled(cfg, w, InsertRow(c, now, idTaken))
    ensures Kept(cfg, w, Apply(cfg, w, InsertRow(c, now, idTaken)))
  {
    var call := w.calls[c];
    assert CallOk(cfg, w.identities, call);
    if RowOf(RowsOf(w.flows), call.req.order).None? && !idTaken {
      var f := Delivery.Flow(NewRow(call.req, call.pc.newMoney, call.pc.newPayer, now), map[], [], [], 0, 0, 0);
      AppendKeepsRows(cfg, w.identities, w.flows, f);
      AnswersGrow(w.flows, w.flows + [f], w.answers);
    }
  }

  /** The link transaction is a step of the delivery machine, in a state that allows it. */
  lemma LockIsDeliveryStep(cfg: Config, w: World, id: nat, req: Request, payer: Payer, reply: GatewayReply)
    requires id < |w.flows| && RowOk(cfg, w.identities, w.flows[id].row) && Refusal(w.flows[id].row, req, payer).None?
    requires !reply.Died? && reply != Link("")
    ensures var f := w.flows[id];
            var act := if reply.Link? then Delivery.CreateLink(reply.url, Stamped(f.row, payer))
                       else Delivery.FailLink(reply.message, Stamped(f.row, payer));
            && Delivery.Enabled(cfg.delivery, f, act)
            && Delivery.Apply(cfg.delivery, f, act) == f.(row := Linked(f.row, payer, reply))
  {
  }

  /** A call never issues a link under another Telegram user's identity; with a Telegram id the
      link is issued under that very id. */
  lemma LinkedRowOk(cfg: Config, ids: seq<Row>, p: Payment, req: Request, payer: Payer, reply: GatewayReply)
    requires TableOk(cfg.rules, ids) && RowOk(cfg, ids, p) && Holds(ids, req, payer) && p.orderId == req.order
    requires Refusal(p, req, payer).None? && !reply.Died? && reply != Link("")
    ensures RowOk(cfg, ids, Linked(p, payer, reply)) && RowGrown(p, Linked(p, payer, reply)) && p.redirectUrl.None?
    ensures reply.Link? ==> Serves(Linked(p, payer, reply), req, reply.url)
    ensures req.telegram.Some? ==>
              Linked(p, payer, reply).payer.kind == TelegramUser && Linked(p, payer, reply).payer.gatewayUserId == req.telegram.value
  {
    assert Owns(cfg.rules, ids[payer.identity]);
    assert Owns(cfg.rules, ids[p.payer.identity]);
  }

  /** A stored link is handed out only to requests it serves. */
  lemma ReplayServes(cfg: Config, ids: seq<Row>, p: Payment, req: Request, payer: Payer)
    requires TableOk(cfg.rules, ids) && RowOk(cfg, ids, p) && Holds(ids, req, payer) && p.orderId == req.order
    requires Refusal(p, req, payer).Some? && Refusal(p, req, payer).value.Url?
    ensures Serves(p, req, Refusal(p, req, payer).value.url)
  {
    assert Owns(cfg.rules, ids[payer.identity]);
    assert Owns(cfg.rules, ids[p.payer.identity]);
  }

  /** The order belongs to another Telegram user than the one who asks now. */
  ghost predicate Another(p: Payment, req: Request) {
    p.payer.kind == TelegramUser && req.telegram.Some? && p.payer.gatewayUserId != req.telegram.value
  }

  /** The same order: no other Telegram user's, and for the stored amount. */
  ghost predicate SameOrder(p: Payment, req: Request) {
    !Another(p, req) && p.money.amount == req.amount
  }

  /** A link is owed: none was issued yet, and the payment is neither verified nor under review. */
  ghost predicate Owed(p: Payment, req: Request) {
    SameOrder(p, req) && p.verifiedAt.None? && (p.status == Created || p.status == GetLinkFailed)
  }

  /** How the locked section decides, from the columns of the row and the request alone. */
  lemma RefusalByColumns(cfg: Config, ids: seq<Row>, p: Payment, req: Request, payer: Payer)
    requires TableOk(cfg.rules, ids) && RowOk(cfg, ids, p) && Holds(ids, req, payer) && p.orderId == req.order
    ensures var r := Refusal(p, req, payer);
      && (r == Some(OtherCustomer) <==> Another(p, req))
      && (r == Some(OtherAmount) <==> !Another(p, req) && p.money.amount != req.amount)
      && (r == Some(AlreadyVerified) <==> SameOrder(p, req) && p.verifiedAt.Some?)
      && (r == Some(UnderReview) <==> SameOrder(p, req) && p.verifiedAt.None? && p.status == ManualReview)
      && (forall u :: r == Some(Url(u)) <==> SameOrder(p, req) && p.verifiedAt.None? && p.status == LinkCreated && p.redirectUrl == Some(u))
      && (r.None? <==> Owed(p, req))
    ensures Refusal(p, req, payer).None? <==>
              && Delivery.Linkable(p) && p.money.amount == req.amount
              && !(p.payer.kind == TelegramUser && payer.kind == TelegramUser && p.payer.identity != payer.identity)
    ensures Owed(p, req) ==>
              Stamped(p, payer) == if p.payer.kind == OrderFallback && req.telegram.Some? then payer else p.payer
  {
    assert Owns(cfg.rules, ids[payer.identity]);
    assert Owns(cfg.rules, ids[p.payer.identity]);
    LookupUnique(cfg.rules, ids, payer.identity);
    LookupUnique(cfg.rules, ids, p.payer.identity);
  }

  /** In every reachable state, for the row of the order and a call that has its payer: each way
      the locked section can end, by the columns alone. */
  lemma LinkOwedExactly(cfg: Config, w: World, c: nat, i: nat)
    requires Reachable(cfg, w) && c in w.calls && w.calls[c].pc.Locking?
    requires i < |w.flows| && w.flows[i].row.orderId == w.calls[c].req.order
    ensures var p, req := w.flows[i].row, w.calls[c].req;
            var r := Refusal(p, req, w.calls[c].pc.payer);
      && (r == Some(OtherCustomer) <==> Another(p, req))
      && (r == Some(OtherAmount) <==> !Another(p, req) && p.money.amount != req.amount)
      && (r == Some(AlreadyVerified) <==> SameOrder(p, req) && p.verifiedAt.Some?)
      && (r == Some(UnderReview) <==> SameOrder(p, req) && p.verifiedAt.None? && p.status == ManualReview)
      && (r.Some? && r.value.Url? <==> SameOrder(p, req) && p.verifiedAt.None? && p.status == LinkCreated)
      && (r.None? <==> Owed(p, req))
    ensures RowOf(RowsOf(w.flows), w.calls[c].req.order) == Some(i)
  {
    ReachableInv(cfg, w);
    assert CallOk(cfg, w.identities, w.calls[c]);
    assert RowOk(cfg, w.identities, w.flows[i].row);
    RefusalByColumns(cfg, w.identities, w.flows[i].row, w.calls[c].req, w.calls[c].pc.payer);
    OnlyRow(cfg, w, i);
  }

  lemma OnlyRow(cfg: Config, w: World, i: nat)
    requires Inv(cfg, w) && i < |w.flows|
    ensures RowOf(RowsOf(w.flows), w.flows[i].row.orderId) == Some(i)
  {
    var found := RowOf(RowsOf(w.flows), w.flows[i].row.orderId);
    assert RowsOf(w.flows)[i].orderId == w.flows[i].row.orderId;
  }

  /** getLink is called exactly when a link is owed, also after an earlier getLink has failed; the
      link it gives is stored and answered. */
  lemma OwedLinkIssued(cfg: Config, w: World, c: nat, i: nat, reply: GatewayReply)
    requires Reachable(cfg, w) && Enabled(cfg, w, Lock(c, reply))
    requires i < |w.flows| && w.flows[i].row.orderId == w.calls[c].req.order
    ensures var v := Apply(cfg, w, Lock(c, reply));
      && (v.links == w.links + 1 <==> Owed(w.flows[i].row, w.calls[c].req))
      && |v.flows| == |w.flows|
      && (reply.Link? && Owed(w.flows[i].row, w.calls[c].req) ==>
            && v.flows[i].row.redirectUrl == Some(reply.url) && v.flows[i].row.status == LinkCreated
            && v.answers == w.answers + [Answered(w.calls[c].req, Url(reply.url))])
  {
    LinkOwedExactly(cfg, w, c, i);
  }

  /** Storing the gateway's answer on row `id`. */
  lemma StoreKeeps(cfg: Config, ids: seq<Row>, flows: seq<Delivery.Flow>, id: nat, req: Request, payer: Payer, reply: GatewayReply)
    requires TableOk(cfg.rules, ids) && RowsOk(cfg, ids, flows) && Holds(ids, req, payer)
    requires id < |flows| && flows[id].row.orderId == req.order
    requires Refusal(flows[id].row, req, payer).None? && !reply.Died? && reply != Link("")
    ensures var after := flows[id := flows[id].(row := Linked(flows[id].row, payer, reply))];
            && RowsOk(cfg, ids, after) && Grown(flows, after)
            && AnswerOk(after, Answered(req, if reply.Link? then Url(reply.url) else GatewayFailed))
  {
    var p := flows[id].row;
    LinkedRowOk(cfg, ids, p, req, payer, reply);
    var after := flows[id := flows[id].(row := Linked(p, payer, reply))];
    assert after[id].row == Linked(p, payer, reply);
  }

  lemma RefusalAnswers(cfg: Config, w: World, c: nat, id: nat)
    requires Inv(cfg, w) && c in w.calls && w.calls[c].pc.Locking?
    requires id < |w.flows| && w.flows[id].row.orderId == w.calls[c].req.order
    ensures var refusal := Refusal(w.flows[id].row, w.calls[c].req, w.calls[c].pc.payer);
            refusal.Some? ==> AnswerOk(w.flows, Answered(w.calls[c].req, refusal.value))
  {
    var req, payer := w.calls[c].req, w.calls[c].pc.payer;
    var refusal := Refusal(w.flows[id].row, req, payer);
    assert CallOk(cfg, w.identities, w.calls[c]);
    if refusal.Some? && refusal.value.Url? {
      ReplayServes(cfg, w.identities, w.flows[id].row, req, payer);
    }
  }

  lemma LockStores(cfg: Config, w: World, c: nat, id: nat, reply: GatewayReply)
    requires Inv(cfg, w) && Enabled(cfg, w, Lock(c, reply)) && !reply.Died?
    requires RowOf(RowsOf(w.flows), w.calls[c].req.order) == Some(id)
    requires Refusal(w.flows[id].row, w.calls[c].req, w.calls[c].pc.payer).None?
    ensures Inv(cfg, DoLock(w, c, reply)) && Grown(w.flows, DoLock(w, c, reply).flows)
  {
    var req, payer := w.calls[c].req, w.calls[c].pc.payer;
    var after := w.flows[id := w.flows[id].(row := Linked(w.flows[id].row, payer, reply))];
    assert CallOk(cfg, w.identities, w.calls[c]);
    StoreKeeps(cfg, w.identities, w.flows, id, req, payer, reply);
    AnswersGrow(w.flows, after, w.answers);
    var u := w.(flows := after, links := w.links + 1,
                events := w.events + AdoptEvents(w.flows[id].row, payer, id) + [LinkEvent(reply, id)]);
    FinishKeeps(cfg, u, c, if reply.Link? then Url(reply.url) else GatewayFailed);
  }

  lemma LockKeeps(cfg: Config, w: World, c: nat, reply: GatewayReply)
    requires Inv(cfg, w) && Enabled(cfg, w, Lock(c, reply))
    ensures Kept(cfg, w, Apply(cfg, w, Lock(c, reply)))
  {
    var req := w.calls[c].req;
    var found := RowOf(RowsOf(w.flows), req.order);
    if found.None? {
      FinishKeeps(cfg, w, c, RowDisappeared);
    } else {
      var refusal := Refusal(w.flows[found.value].row, req, w.calls[c].pc.payer);
      if refusal.Some? {
        RefusalAnswers(cfg, w, c, found.value);
        FinishKeeps(cfg, w.(events := w.events + RefusalEvents(refusal.value, found.value)), c, refusal.value);
      } else if !reply.Died? {
        LockStores(cfg, w, c, found.value, reply);
      }
    }
  }

  lemma CheckKeeps(cfg: Config, w: World, c: nat, rateBps: int)
    requires Inv(cfg, w) && Enabled(cfg, w, Check(c, rateBps))
    ensures Kept(cfg, w, Apply(cfg, w, Check(c, rateBps)))
  {
    var req := w.calls[c].req;
    var money := Fees.CalculateFee(req.amount, rateBps);
    if RowOf(RowsOf(w.flows), req.order).Some? {
      GotoKeeps(cfg, w, c, Resolving(None, Look));
    } else if money.None? {
      FinishKeeps(cfg, w, c, InvalidAmount);
    } else if money.value.payable > cfg.maxAmount {
      FinishKeeps(cfg, w, c, AmountTooLarge);
    } else {
      GotoKeeps(cfg, w, c, Resolving(money, Look));
    }
  }

  lemma ElsewhereKeeps(cfg: Config, w: World, i: nat, act: Delivery.Action)
    requires Inv(cfg, w) && Enabled(cfg, w, Elsewhere(i, act))
    ensures Kept(cfg, w, Apply(cfg, w, Elsewhere(i, act)))
  {
    var f, v := w.flows[i], Apply(cfg, w, Elsewhere(i, act));
    assert RowOk(cfg, w.identities, f.row);
    Delivery.RowInvStep(cfg.delivery, f, act);
    Delivery.IssueKept(cfg.delivery, f, act);
    assert RowOk(cfg, w.identities, v.flows[i].row);
    AnswersGrow(w.flows, v.flows, w.answers);
  }

  lemma ComesAndGoes(cfg: Config, w: World, c: nat, req: Request)
    requires Inv(cfg, w)
    ensures c !in w.calls ==> Kept(cfg, w, Apply(cfg, w, Arrive(c, req)))
    ensures c in w.calls ==> Kept(cfg, w, Apply(cfg, w, Crash(c)))
  {
  }

  lemma InvStep(cfg: Config, w: World, a: Action)
    requires Inv(cfg, w) && Enabled(cfg, w, a)
    ensures Kept(cfg, w, Apply(cfg, w, a))
  {
    match a
    case Arrive(c, req) => ComesAndGoes(cfg, w, c, req);
    case Check(c, rate) => CheckKeeps(cfg, w, c, rate);
    case Resolve(c) => ResolveKeeps(cfg, w, c);
    case InsertRow(c, now, idTaken) => InsertKeeps(cfg, w, c, now, idTaken);
    case Lock(c, reply) => LockKeeps(cfg, w, c, reply);
    case Elsewhere(i, act) => ElsewhereKeeps(cfg, w, i, act);
    case Crash(c) => ComesAndGoes(cfg, w, c, w.calls[c].req);
  }

  ghost function Invariant(cfg: Config): (p: World -> bool) {
    w => Inv(cfg, w)
  }

  lemma InvInductive(cfg: Config)
    ensures Runs.Inductive(Start(), Steps(cfg), Invariant(cfg))
  {
    forall w, v | Inv(cfg, w) && Next(cfg, w, v) ensures Inv(cfg, v) {
      var a :| Enabled(cfg, w, a) && v == Apply(cfg, w, a);
      InvStep(cfg, w, a);
    }
  }

  lemma ReachableInv(cfg: Config, w: World)
    requires Reachable(cfg, w)
    ensures Inv(cfg, w)
  {
    InvInductive(cfg);
    Runs.ReachableInv(Start(), Steps(cfg), Invariant(cfg), w);
  }

  // ----- One link per order ------------------------------------------------------------------------------

  ghost predicate Successful(w: World, k: nat) {
    k < |w.answers| && w.answers[k].answer.Url?
  }

  /** All calls that succeeded for one order, however they interleaved, failed and died,
      asked for the same amount and got the same URL, the one stored on the order's row. */
  lemma OneLinkPerOrder(cfg: Config, w: World, j: nat, k: nat)
    requires Reachable(cfg, w) && Successful(w, j) && Successful(w, k) && w.answers[j].req.order == w.answers[k].req.order
    ensures w.answers[j].answer == w.answers[k].answer
    ensures w.answers[j].req.amount == w.answers[k].req.amount
    ensures exists i | 0 <= i < |w.flows| :: Serves(w.flows[i].row, w.answers[j].req, w.answers[j].answer.url)
  {
    ReachableInv(cfg, w);
    var a, b := w.answers[j], w.answers[k];
    assert AnswerOk(w.flows, a) && AnswerOk(w.flows, b);
    var i :| 0 <= i < |w.flows| && Serves(w.flows[i].row, a.req, a.answer.url);
    var l :| 0 <= l < |w.flows| && Serves(w.flows[l].row, b.req, b.answer.url);
    assert i == l;
  }

  /** The identities and rows of two states of one run. */
  ghost function Lasting(cfg: Config): (p: (World, World) -> bool) {
    (w: World, v: World) => Grown(w.flows, v.flows) && w.identities <= v.identities && w.answers <= v.answers
  }

  lemma StepLasts(cfg: Config, w: World, v: World)
    requires Inv(cfg, w) && Next(cfg, w, v)
    ensures Lasting(cfg)(w, v)
  {
    var a :| Enabled(cfg, w, a) && v == Apply(cfg, w, a);
    InvStep(cfg, w, a);
  }

  lemma GrownTrans(f: seq<Delivery.Flow>, g: seq<Delivery.Flow>, h: seq<Delivery.Flow>)
    requires Grown(f, g) && Grown(g, h)
    ensures Grown(f, h)
  {
    forall i | 0 <= i < |f| ensures RowGrown(f[i].row, h[i].row)
    {
      assert RowGrown(f[i].row, g[i].row) && RowGrown(g[i].row, h[i].row);
    }
  }

  lemma RunLasts(cfg: Config, run: seq<World>, j: nat, k: nat)
    requires IsRun(cfg, run) && j <= k < |run|
    ensures Lasting(cfg)(run[j], run[k])
  {
    InvInductive(cfg);
    forall u, w, v | Inv(cfg, w) && Lasting(cfg)(u, w) && Next(cfg, w, v) ensures Lasting(cfg)(u, v) {
      StepLasts(cfg, w, v);
      GrownTrans(u.flows, w.flows, v.flows);
    }
    Runs.Onward(Start(), Steps(cfg), Invariant(cfg), Lasting(cfg), run, j, k);
  }

  /** Over every run an order keeps its amount and fee, a payer once it is a Telegram user, and
      once its URL is stored the URL, the payer identity and the gateway user id. */
  lemma LinkFrozen(cfg: Config, run: seq<World>, j: nat, k: nat, i: nat)
    requires IsRun(cfg, run) && j <= k < |run| && i < |run[j].flows|
    ensures i < |run[k].flows| && SameCharge(run[j].flows[i].row, run[k].flows[i].row)
    ensures run[j].flows[i].row.redirectUrl.Some? ==> SameIssue(run[j].flows[i].row, run[k].flows[i].row)
    ensures run[j].flows[i].row.payer.kind == TelegramUser ==> run[k].flows[i].row.payer == run[j].flows[i].row.payer
  {
    RunLasts(cfg, run, j, k);
    assert RowGrown(run[j].flows[i].row, run[k].flows[i].row);
  }

  /** What the gateway charges for an order is the snapshot taken when its row was inserted:
      the nearest fee for its amount and rate, within the configured maximum. */
  lemma StoredMoney(cfg: Config, w: World, i: nat)
    requires Reachable(cfg, w) && i < |w.flows|
    ensures var m := w.flows[i].row.money;
            Fees.CalculateFee(m.amount, m.rateBps) == Some(m) && m.payable == m.amount + m.fee <= cfg.maxAmount
  {
    ReachableInv(cfg, w);
    assert RowOk(cfg, w.identities, w.flows[i].row);
    Fees.SnapshotUnique(w.flows[i].row.money);
  }

  // ----- Each order is issued one link -----------------------------------------------------------------------

  /** How often exactly this event was recorded. */
  ghost function Noted(events: seq<Event>, e: Event): (n: nat) {
    if events == [] then 0
    else Noted(events[..|events| - 1], e) + if events[|events| - 1] == e then 1 else 0
  }

  ghost function Issues(events: seq<Event>, i: nat): (n: nat) {
    Noted(events, Event(LinkIssued, Some(i)))
  }

  /** Row i has one link-issued event if it carries a URL, and none otherwise. */
  ghost predicate IssuedFor(events: seq<Event>, flows: seq<Delivery.Flow>, i: nat) {
    Issues(events, i) == if i < |flows| && flows[i].row.redirectUrl.Some? then 1 else 0
  }

  ghost predicate IssuedOnce(w: World) {
    forall i: nat :: IssuedFor(w.events, w.flows, i)
  }

  lemma {:induction false} NotedAppend(events: seq<Event>, more: seq<Event>, e: Event)
    ensures Noted(events + more, e) == Noted(events, e) + Noted(more, e)
  {
    if more == [] {
      assert events + more == events;
    } else {
      var n := |more| - 1;
      NotedAppend(events, more[..n], e);
      assert (events + more)[..|events| + n] == events + more[..n];
    }
  }

  lemma IssuesAppend(events: seq<Event>, more: seq<Event>, i: nat)
    ensures Issues(events + more, i) == Issues(events, i) + Issues(more, i)
  {
    NotedAppend(events, more, Event(LinkIssued, Some(i)));
  }

  lemma {:induction false} NotedNever(more: seq<Event>, e: Event)
    requires forall k | 0 <= k < |more| :: more[k] != e
    ensures Noted(more, e) == 0
  {
    if more != [] {
      NotedNever(more[..|more| - 1], e);
    }
  }

  lemma NotedTwo(a: Event, b: Event, e: Event)
    ensures Noted([a, b], e) == (if a == e then 1 else 0) + (if b == e then 1 else 0)
  {
    assert [a, b][..1] == [a];
    assert Noted([a], e) == if a == e then 1 else 0;
  }

  lemma LinkEvents(p: Payment, payer: Payer, reply: GatewayReply, id: nat, i: nat)
    requires !reply.Died?
    ensures Issues(AdoptEvents(p, payer, id) + [LinkEvent(reply, id)], i) == if reply.Link? && i == id then 1 else 0
  {
    NotedNever(AdoptEvents(p, payer, id), Event(LinkIssued, Some(i)));
    IssuesAppend(AdoptEvents(p, payer, id), [LinkEvent(reply, id)], i);
    assert Noted([LinkEvent(reply, id)], Event(LinkIssued, Some(i))) == if reply.Link? && i == id then 1 else 0;
  }

  lemma QuietEvents(a: Answer, before: seq<Row>, after: seq<Row>, p: Progress, id: nat, i: nat)
    ensures Issues(RefusalEvents(a, id), i) == 0
    ensures Issues(ResolveEvents(before, after, p), i) == 0
    ensures Issues([Event(PaymentCreated, Some(id)), Event(FeeSnapshotted, Some(id))], i) == 0
  {
    NotedNever(RefusalEvents(a, id), Event(LinkIssued, Some(i)));
    NotedNever(ResolveEvents(before, after, p), Event(LinkIssued, Some(i)));
    NotedNever([Event(PaymentCreated, Some(id)), Event(FeeSnapshotted, Some(id))], Event(LinkIssued, Some(i)));
  }

  /** Storing the gateway's answer issues a link exactly when it is one. */
  lemma StoreIssues(cfg: Config, ids: seq<Row>, events: seq<Event>, flows: seq<Delivery.Flow>, id: nat,
                    req: Request, payer: Payer, reply: GatewayReply, i: nat)
    requires id < |flows| && RowOk(cfg, ids, flows[id].row) && Refusal(flows[id].row, req, payer).None? && !reply.Died?
    requires IssuedFor(events, flows, i)
    ensures IssuedFor(events + AdoptEvents(flows[id].row, payer, id) + [LinkEvent(reply, id)],
                      flows[id := flows[id].(row := Linked(flows[id].row, payer, reply))], i)
  {
    var p := flows[id].row;
    assert p.redirectUrl.None?;
    LinkedIssues(events, p, payer, reply, id, i);
  }

  lemma LinkedIssues(events: seq<Event>, p: Payment, payer: Payer, reply: GatewayReply, id: nat, i: nat)
    requires !reply.Died?
    ensures Issues(events + AdoptEvents(p, payer, id) + [LinkEvent(reply, id)], i)
            == Issues(events, i) + if reply.Link? && i == id then 1 else 0
  {
    var adopted, linked := AdoptEvents(p, payer, id), [LinkEvent(reply, id)];
    LinkEvents(p, payer, reply, id, i);
    IssuesAppend(events, adopted + linked, i);
    assert events + adopted + linked == events + (adopted + linked);
  }

  lemma LockIssues(cfg: Config, w: World, c: nat, reply: GatewayReply, i: nat)
    requires Inv(cfg, w) && IssuedFor(w.events, w.flows, i) && Enabled(cfg, w, Lock(c, reply))
    ensures var v := DoLock(w, c, reply); IssuedFor(v.events, v.flows, i)
  {
    var req, payer := w.calls[c].req, w.calls[c].pc.payer;
    var found := RowOf(RowsOf(w.flows), req.order);
    if found.Some? {
      var p := w.flows[found.value].row;
      var refusal := Refusal(p, req, payer);
      if refusal.Some? {
        QuietEvents(refusal.value, [], [], Collision, found.value, i);
        IssuesAppend(w.events, RefusalEvents(refusal.value, found.value), i);
      } else if !reply.Died? {
        assert RowOk(cfg, w.identities, p);
        StoreIssues(cfg, w.identities, w.events, w.flows, found.value, req, payer, reply, i);
      }
    }
  }

  lemma ResolveFrame(cfg: Config, w: World, c: nat)
    requires c in w.calls && w.calls[c].pc.Resolving?
    ensures var v := DoResolve(cfg, w, c);
            var key, probe := KeyOf(w.calls[c].req), w.calls[c].pc.probe;
            var table := TableAfter(cfg.rules, w.identities, key, probe);
            v.flows == w.flows && v.events == w.events + ResolveEvents(w.identities, table, Advance(cfg.rules, w.identities, key, probe))
  {
  }

  lemma ResolveIssues(cfg: Config, w: World, c: nat, i: nat)
    requires c in w.calls && w.calls[c].pc.Resolving? && IssuedFor(w.events, w.flows, i)
    ensures var v := DoResolve(cfg, w, c); IssuedFor(v.events, v.flows, i)
  {
    var key, probe := KeyOf(w.calls[c].req), w.calls[c].pc.probe;
    var table := TableAfter(cfg.rules, w.identities, key, probe);
    ResolveFrame(cfg, w, c);
    QuietAppend(w.events, w.identities, table, Advance(cfg.rules, w.identities, key, probe), i);
  }

  lemma QuietAppend(events: seq<Event>, before: seq<Row>, after: seq<Row>, p: Progress, i: nat)
    ensures Issues(events + ResolveEvents(before, after, p), i) == Issues(events, i)
  {
    QuietEvents(UnderReview, before, after, p, 0, i);
    IssuesAppend(events, ResolveEvents(before, after, p), i);
  }

  lemma InsertIssues(w: World, c: nat, now: Time, idTaken: bool, i: nat)
    requires c in w.calls && w.calls[c].pc.Inserting? && IssuedFor(w.events, w.flows, i)
    ensures var v := DoInsert(w, c, now, idTaken); IssuedFor(v.events, v.flows, i)
  {
    var id := |w.flows|;
    QuietEvents(UnderReview, [], [], Collision, id, i);
    IssuesAppend(w.events, [Event(PaymentCreated, Some(id)), Event(FeeSnapshotted, Some(id))], i);
  }

  lemma ElsewhereIssues(cfg: Config, w: World, n: nat, act: Delivery.Action, i: nat)
    requires Inv(cfg, w) && IssuedFor(w.events, w.flows, i) && Enabled(cfg, w, Elsewhere(n, act))
    ensures var v := Apply(cfg, w, Elsewhere(n, act)); IssuedFor(v.events, v.flows, i)
  {
    assert RowOk(cfg, w.identities, w.flows[n].row);
    Delivery.IssueKept(cfg.delivery, w.flows[n], act);
  }

  lemma IssuedOnceStep(cfg: Config, w: World, a: Action, i: nat)
    requires Inv(cfg, w) && IssuedFor(w.events, w.flows, i) && Enabled(cfg, w, a)
    ensures var v := Apply(cfg, w, a); IssuedFor(v.events, v.flows, i)
  {
    match a
    case Arrive(_, _) =>
    case Check(_, _) =>
    case Resolve(c) => ResolveIssues(cfg, w, c, i);
    case InsertRow(c, now, idTaken) => InsertIssues(w, c, now, idTaken, i);
    case Lock(c, reply) => LockIssues(cfg, w, c, reply, i);
    case Crash(_) =>
    case Elsewhere(n, act) => ElsewhereIssues(cfg, w, n, act, i);
  }

  /** In every reachable state an order has one link-issued event if its row carries a URL
      and none otherwise: no order is ever issued a second link. */
  lemma LinkIssuedAtMostOnce(cfg: Config, w: World)
    requires Reachable(cfg, w)
    ensures IssuedOnce(w)
  {
    InvInductive(cfg);
    var inv := (u: World) => Inv(cfg, u) && IssuedOnce(u);
    forall u, v | inv(u) && Next(cfg, u, v) ensures inv(v) {
      var a :| Enabled(cfg, u, a) && v == Apply(cfg, u, a);
      InvStep(cfg, u, a);
      forall i: nat ensures IssuedFor(v.events, v.flows, i) {
        assert IssuedFor(u.events, u.flows, i);
        IssuedOnceStep(cfg, u, a, i);
      }
    }
    Runs.ReachableInv(Start(), Steps(cfg), inv, w);
  }

  // ----- What the trail says was created -----------------------------------------------------------------------

  /** One event for every identity, and two for every row. */
  ghost predicate Recorded(ids: nat, rows: nat, events: seq<Event>) {
    && Noted(events, Event(IdentityCreated, None)) == ids
    && forall i: nat :: RowRecorded(rows, events, i)
  }

  ghost predicate RowRecorded(rows: nat, events: seq<Event>, i: nat) {
    Noted(events, Event(PaymentCreated, Some(i))) == Noted(events, Event(FeeSnapshotted, Some(i))) == if i < rows then 1 else 0
  }

  ghost predicate CreationKind(kind: EventKind) {
    kind == IdentityCreated || kind == PaymentCreated || kind == FeeSnapshotted
  }

  lemma OtherEventsRecord(ids: nat, rows: nat, events: seq<Event>, more: seq<Event>)
    requires Recorded(ids, rows, events) && forall k | 0 <= k < |more| :: !CreationKind(more[k].kind)
    ensures Recorded(ids, rows, events + more)
  {
    NotedNever(more, Event(IdentityCreated, None));
    NotedAppend(events, more, Event(IdentityCreated, None));
    forall i: nat ensures RowRecorded(rows, events + more, i) {
      assert RowRecorded(rows, events, i);
      NotedNever(more, Event(PaymentCreated, Some(i)));
      NotedNever(more, Event(FeeSnapshotted, Some(i)));
      NotedAppend(events, more, Event(PaymentCreated, Some(i)));
      NotedAppend(events, more, Event(FeeSnapshotted, Some(i)));
    }
  }

  lemma IdentityRecorded(ids: nat, rows: nat, events: seq<Event>)
    requires Recorded(ids, rows, events)
    ensures Recorded(ids + 1, rows, events + [Event(IdentityCreated, None)])
  {
    var more := [Event(IdentityCreated, None)];
    NotedAppend(events, more, Event(IdentityCreated, None));
    forall i: nat ensures RowRecorded(rows, events + more, i) {
      assert RowRecorded(rows, events, i);
      NotedAppend(events, more, Event(PaymentCreated, Some(i)));
      NotedAppend(events, more, Event(FeeSnapshotted, Some(i)));
    }
  }

  lemma NewRowRecorded(ids: nat, rows: nat, events: seq<Event>)
    requires Recorded(ids, rows, events)
    ensures Recorded(ids, rows + 1, events + [Event(PaymentCreated, Some(rows)), Event(FeeSnapshotted, Some(rows))])
  {
    var more := [Event(PaymentCreated, Some(rows)), Event(FeeSnapshotted, Some(rows))];
    var all, n := events + more, rows + 1;
    NotedNever(more, Event(IdentityCreated, None));
    NotedAppend(events, more, Event(IdentityCreated, None));
    forall i: nat ensures RowRecorded(n, all, i) {
      assert RowRecorded(rows, events, i);
      NotedTwo(more[0], more[1], Event(PaymentCreated, Some(i)));
      NotedTwo(more[0], more[1], Event(FeeSnapshotted, Some(i)));
      NotedAppend(events, more, Event(PaymentCreated, Some(i)));
      NotedAppend(events, more, Event(FeeSnapshotted, Some(i)));
    }
  }

  ghost predicate WorldRecorded(w: World) {
    Recorded(|w.identities|, |w.flows|, w.events)
  }

  lemma ResolveRecords(cfg: Config, w: World, c: nat)
    requires WorldRecorded(w) && c in w.calls && w.calls[c].pc.Resolving?
    ensures WorldRecorded(DoResolve(cfg, w, c))
  {
    var key, probe := KeyOf(w.calls[c].req), w.calls[c].pc.probe;
    var table, p := TableAfter(cfg.rules, w.identities, key, probe), Advance(cfg.rules, w.identities, key, probe);
    ResolveFrame(cfg, w, c);
    if |table| > |w.identities| {
      IdentityRecorded(|w.identities|, |w.flows|, w.events);
    } else {
      OtherEventsRecord(|w.identities|, |w.flows|, w.events, ResolveEvents(w.identities, table, p));
    }
  }

  lemma LockRecords(cfg: Config, w: World, c: nat, reply: GatewayReply)
    requires WorldRecorded(w) && Enabled(cfg, w, Lock(c, reply))
    ensures WorldRecorded(DoLock(w, c, reply))
  {
    var req, payer := w.calls[c].req, w.calls[c].pc.payer;
    var found := RowOf(RowsOf(w.flows), req.order);
    if found.Some? {
      var p := w.flows[found.value].row;
      var refusal := Refusal(p, req, payer);
      if refusal.Some? {
        OtherEventsRecord(|w.identities|, |w.flows|, w.events, RefusalEvents(refusal.value, found.value));
      } else if !reply.Died? {
        var more := AdoptEvents(p, payer, found.value) + [LinkEvent(reply, found.value)];
        OtherEventsRecord(|w.identities|, |w.flows|, w.events, more);
        assert w.events + more == w.events + AdoptEvents(p, payer, found.value) + [LinkEvent(reply, found.value)];
      }
    }
  }

  lemma StepRecords(cfg: Config, w: World, a: Action)
    requires WorldRecorded(w) && Enabled(cfg, w, a)
    ensures WorldRecorded(Apply(cfg, w, a))
  {
    match a
    case Resolve(c) => ResolveRecords(cfg, w, c);
    case InsertRow(c, now, idTaken) => NewRowRecorded(|w.identities|, |w.flows|, w.events);
    case Lock(c, reply) => LockRecords(cfg, w, c, reply);
    case _ =>
  }

  /** In every reachable state the trail has one event for every payer identity, and for every order
      one creation and one fee snapshot: nothing was created without a trace, or traced twice. */
  lemma TrailOfCreation(cfg: Config, w: World)
    requires Reachable(cfg, w)
    ensures WorldRecorded(w)
  {
    var inv := (u: World) => WorldRecorded(u);
    forall u, v | inv(u) && Next(cfg, u, v) ensures inv(v) {
      var a :| Enabled(cfg, u, a) && v == Apply(cfg, u, a);
      StepRecords(cfg, u, a);
    }
    Runs.ReachableInv(Start(), Steps(cfg), inv, w);
  }

  // ----- Payer isolation -----------------------------------------------------------------------------------------

  /** In every reachable state keys and gateway user ids are one-to-one, a Telegram user's id
      is the Telegram id itself, the ids of orders lie beyond all of them, and the shared
      legacy id belongs to nobody; every payment is charged under an identity of the table. */
  lemma PayerIsolation(cfg: Config, w: World, i: nat, j: nat)
    requires Reachable(cfg, w) && i < |w.identities| && j < |w.identities|
    ensures w.identities[i].key == w.identities[j].key <==> i == j
    ensures w.identities[i].gatewayUserId == w.identities[j].gatewayUserId <==> i == j
    ensures w.identities[i].key.TelegramKey? ==> w.identities[i].gatewayUserId == w.identities[i].key.user <= MAX_TELEGRAM_USER_ID
    ensures w.identities[i].key.OrderKey? ==> w.identities[i].gatewayUserId > MAX_TELEGRAM_USER_ID
    ensures Some(w.identities[i].gatewayUserId) != cfg.rules.reserved
    ensures forall n | 0 <= n < |w.flows| :: PayerOk(w.identities, w.flows[n].row.payer, w.flows[n].row.orderId)
  {
    ReachableInv(cfg, w);
    assert Owns(cfg.rules, w.identities[i]);
    forall n | 0 <= n < |w.flows| ensures PayerOk(w.identities, w.flows[n].row.payer, w.flows[n].row.orderId) {
      assert RowOk(cfg, w.identities, w.flows[n].row);
    }
  }

  ghost predicate HasPayer(call: Call, payer: Payer) {
    call.pc == Locking(payer) || (call.pc.Inserting? && call.pc.newPayer == payer)
  }

  /** Two calls for one key, at any two points of a run and however they raced, resolve to
      the same identity row. */
  lemma ResolvingIsStable(cfg: Config, run: seq<World>, j: nat, k: nat, c: nat, d: nat, p: Payer, q: Payer)
    requires IsRun(cfg, run) && j <= k < |run|
    requires c in run[j].calls && HasPayer(run[j].calls[c], p)
    requires d in run[k].calls && HasPayer(run[k].calls[d], q)
    requires KeyOf(run[j].calls[c].req) == KeyOf(run[k].calls[d].req)
    ensures p == q
  {
    InvInductive(cfg);
    Runs.Always(Start(), Steps(cfg), Invariant(cfg), run, j);
    Runs.Always(Start(), Steps(cfg), Invariant(cfg), run, k);
    RunLasts(cfg, run, j, k);
    assert CallOk(cfg, run[j].identities, run[j].calls[c]) && CallOk(cfg, run[k].identities, run[k].calls[d]);
    var ids := run[k].identities;
    assert ids[p.identity] == run[j].identities[p.identity];
    LookupUnique(cfg.rules, ids, p.identity);
    LookupUnique(cfg.rules, ids, q.identity);
  }

  /** A request of one Telegram user is never answered with a link that was issued under
      another; two Telegram users are given the link of one order only if that link was
      issued under the order's own identity. */
  lemma LinkNeverCrosses(cfg: Config, w: World, j: nat, k: nat, i: nat)
    requires Reachable(cfg, w) && Successful(w, j) && i < |w.flows| && w.flows[i].row.orderId == w.answers[j].req.order
    ensures w.answers[j].req.telegram.Some? && w.flows[i].row.payer.kind == TelegramUser ==>
              w.flows[i].row.payer.gatewayUserId == w.answers[j].req.telegram.value
    ensures Successful(w, k) && w.answers[k].req.order == w.answers[j].req.order
            && w.answers[j].req.telegram.Some? && w.answers[k].req.telegram.Some?
            && w.answers[j].req.telegram != w.answers[k].req.telegram
            ==> w.flows[i].row.payer.kind == OrderFallback
  {
    ReachableInv(cfg, w);
    ServedBy(cfg, w, j, i);
    if Successful(w, k) && w.answers[k].req.order == w.answers[j].req.order {
      ServedBy(cfg, w, k, i);
    }
  }

  lemma ServedBy(cfg: Config, w: World, k: nat, i: nat)
    requires Inv(cfg, w) && Successful(w, k) && i < |w.flows| && w.flows[i].row.orderId == w.answers[k].req.order
    ensures Serves(w.flows[i].row, w.answers[k].req, w.answers[k].answer.url)
  {
    var a := w.answers[k];
    assert AnswerOk(w.flows, a);
    var l :| 0 <= l < |w.flows| && Serves(w.flows[l].row, a.req, a.answer.url);
    assert l == i;
  }

  // ----- The fast replay --------------------------------------------------------------------------------------------

  /** The stored payer of a replayed order is what the request resolves to. */
  lemma ReplayPayer(cfg: Config, w: World, req: Request, i: nat)
    requires Inv(cfg, w) && FindSafeReplay(RowsOf(w.flows), req).Some? && RowOf(RowsOf(w.flows), req.order) == Some(i)
    ensures var payer := w.flows[i].row.payer;
            && payer.identity < |w.identities|
            && w.identities[payer.identity].key == KeyOf(req)
            && payer == PayerFor(req, w.identities, payer.identity)
  {
    var p := w.flows[i].row;
    assert RowOk(cfg, w.identities, p);
    assert Owns(cfg.rules, w.identities[p.payer.identity]);
  }

  ghost predicate Does(cfg: Config, w: World, a: Action, v: World) {
    Enabled(cfg, w, a) && v == Apply(cfg, w, a)
  }

  ghost function At(w: World, c: nat, req: Request, pc: Pc): (v: World) {
    w.(calls := w.calls[c := Call(req, pc)])
  }

  lemma ReplayResolves(cfg: Config, w: World, c: nat, req: Request, i: nat)
    requires Inv(cfg, w) && FindSafeReplay(RowsOf(w.flows), req).Some? && RowOf(RowsOf(w.flows), req.order) == Some(i)
    ensures Does(cfg, At(w, c, req, Resolving(None, Look)), Resolve(c), At(w, c, req, Locking(w.flows[i].row.payer)))
  {
    var payer := w.flows[i].row.payer;
    ReplayPayer(cfg, w, req, i);
    MappedKeyNoWrite(cfg.rules, w.identities, payer.identity);
    var v := DoResolve(cfg, At(w, c, req, Resolving(None, Look)), c);
    assert v.calls == At(w, c, req, Locking(payer)).calls;
    assert v.events == w.events;
  }

  lemma ReplayAnswers(cfg: Config, w: World, c: nat, req: Request, i: nat, reply: GatewayReply)
    requires Inv(cfg, w) && FindSafeReplay(RowsOf(w.flows), req).Some? && RowOf(RowsOf(w.flows), req.order) == Some(i)
    requires c !in w.calls && reply != Link("")
    ensures Does(cfg, At(w, c, req, Locking(w.flows[i].row.payer)), Lock(c, reply),
                 w.(answers := w.answers + [Answered(req, Url(FindSafeReplay(RowsOf(w.flows), req).value))]))
  {
    var p := w.flows[i].row;
    assert RowOk(cfg, w.identities, p);
    var u := At(w, c, req, Locking(p.payer));
    assert Refusal(p, req, p.payer) == Some(Url(p.redirectUrl.value));
    assert u.calls - {c} == w.calls;
    assert w.events + RefusalEvents(Url(p.redirectUrl.value), i) == w.events;
  }

  /** On one row: the shape test of the fast path is that the request's key is the stored
      payer's, and then the locked section decides as the fast path does. */
  lemma SafeShape(cfg: Config, ids: seq<Row>, p: Payment, req: Request)
    requires TableOk(cfg.rules, ids) && RowOk(cfg, ids, p) && p.orderId == req.order
    ensures Lookup(ids, KeyOf(req)) == Some(p.payer.identity) <==>
              if req.telegram.Some? then p.payer.kind == TelegramUser && p.payer.gatewayUserId == req.telegram.value
              else p.payer.kind == OrderFallback
  {
    assert Owns(cfg.rules, ids[p.payer.identity]);
    LookupUnique(cfg.rules, ids, p.payer.identity);
  }

  lemma SafeRefusal(cfg: Config, ids: seq<Row>, p: Payment, req: Request, url: string)
    requires RowOk(cfg, ids, p)
    ensures Refusal(p, req, p.payer) == Some(Url(url)) <==>
              p.status == LinkCreated && p.redirectUrl == Some(url) && p.money.amount == req.amount
  {
  }

  /** When the fast path answers, in every reachable state: exactly when the request's own key
      is already mapped to the identity stored on the order's row, and the locked section
      would return the URL. */
  lemma FastReplayExactly(cfg: Config, w: World, req: Request, url: string)
    requires Reachable(cfg, w)
    ensures FindSafeReplay(RowsOf(w.flows), req) == Some(url) <==>
              var found := RowOf(RowsOf(w.flows), req.order);
              && found.Some?
              && Lookup(w.identities, KeyOf(req)) == Some(w.flows[found.value].row.payer.identity)
              && Refusal(w.flows[found.value].row, req, w.flows[found.value].row.payer) == Some(Url(url))
  {
    ReachableInv(cfg, w);
    var found := RowOf(RowsOf(w.flows), req.order);
    if found.Some? {
      var p := w.flows[found.value].row;
      assert RowOk(cfg, w.identities, p);
      SafeShape(cfg, w.identities, p, req);
      SafeRefusal(cfg, w.identities, p, req, url);
    }
  }

  lemma ReplayStarts(cfg: Config, w: World, c: nat, req: Request, rateBps: int)
    requires c !in w.calls && RowOf(RowsOf(w.flows), req.order).Some?
    ensures Does(cfg, w, Arrive(c, req), At(w, c, req, Checking))
    ensures Does(cfg, At(w, c, req, Checking), Check(c, rateBps), At(w, c, req, Resolving(None, Look)))
  {
    assert At(w, c, req, Checking).calls[c := Call(req, Resolving(None, Look))] == At(w, c, req, Resolving(None, Look)).calls;
  }

  /** Whenever the read-only check answers u, full creation on the same state answers u too,
      step by step, without calling the gateway and without touching payments, identities or
      events, whatever rate is in force and whatever the gateway would have said. */
  lemma FastReplayRefinesCreation(cfg: Config, w: World, c: nat, req: Request, rateBps: int, reply: GatewayReply)
    requires Reachable(cfg, w) && c !in w.calls && reply != Link("")
    requires FindSafeReplay(RowsOf(w.flows), req).Some?
    ensures RowOf(RowsOf(w.flows), req.order).Some?
    ensures Does(cfg, w, Arrive(c, req), At(w, c, req, Checking))
    ensures Does(cfg, At(w, c, req, Checking), Check(c, rateBps), At(w, c, req, Resolving(None, Look)))
    ensures var payer := w.flows[RowOf(RowsOf(w.flows), req.order).value].row.payer;
            && Does(cfg, At(w, c, req, Resolving(None, Look)), Resolve(c), At(w, c, req, Locking(payer)))
            && Does(cfg, At(w, c, req, Locking(payer)), Lock(c, reply),
                    w.(answers := w.answers + [Answered(req, Url(FindSafeReplay(RowsOf(w.flows), req).value))]))
  {
    ReachableInv(cfg, w);
    var i := RowOf(RowsOf(w.flows), req.order).value;
    ReplayStarts(cfg, w, c, req, rateBps);
    ReplayResolves(cfg, w, c, req, i);
    ReplayAnswers(cfg, w, c, req, i, reply);
  }
}
