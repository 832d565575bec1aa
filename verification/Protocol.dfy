/** Concurrent sessions over one database and one exchange.

    Every session is one transaction: what it writes is invisible until it commits
    and vanishes when it crashes. Two things block it: a key another open session
    has claimed, and a bot row another open session has locked. The exchange is an
    environment: it accepts calls late or never, refuses a repeated client order
    id, and moves accepted orders forward on its own. */
module Protocol {
  import opened Common
  import opened Idempotency
  import opened BotMachine
  import opened Requests
  import SimulationLedger

  type Pid = nat

  /** What clients ask for. `close` marks the close-position endpoint, whose
      quantity was read from the live position before the session began. */
  datatype Request =
    | PlaceOrder(user: nat, close: bool, text: string, symbol: string, side: string, orderType: string,
                 quantity: real, price: Option<real>)
    | Transition(user: nat, bot: nat, text: string, op: Op)
    | Manage(user: nat, bot: nat, text: string, event: Event)
    | Remove(user: nat, bot: nat, text: string)
    | Open(user: nat, bot: nat, text: string, symbol: string, target: real, capital: real)

  datatype Phase =
    | Starting               // nothing done yet
    | Claimed                // the client's key is claimed
    | Holding                // a transition holds the bot row and its status was right
    | Keyed                  // ... and has claimed the derived inner key
    | Sent                   // create_order was called
    | Doubtful               // ... and raised; one confirmation read follows
    | Unsettled              // the order is open; one reconciliation read follows
    | Finished               // every write is made; only the commit is missing

  /** What a session will write to its bot's row: for an operation, the row it computed. */
  datatype Write = NoWrite | Put(event: Event, desk: Desk) | Create | Drop

  /** `row` is the bot row a transition read when it took the lock, `call` the position
      of its create_order call among all calls. */
  datatype Session = Session(
    req: Request, phase: Phase, row: Option<Desk>, call: Option<nat>, write: Write, answer: Reservation<Receipt>)

  /** One create_order call; `index` is its position among all calls. */
  datatype Call = Call(index: nat, cid: KeyId, side: Side, quantity: real)

  /** The state of an accepted order at the exchange. */
  datatype Fate = Fate(status: OrderStatus, executed: real)

  /** A bot as it was created, the operations completed on it since, and as it is
      now or was when it was deleted. */
  datatype History = History(first: Desk, events: seq<Event>, last: Desk)

  /** Committed keys, bot rows and their histories; the claimed but uncommitted
      keys (who owns them and what they hold); row locks; open sessions; and, on
      the exchange's side, every call made, every order accepted and its fate. */
  datatype Sys = Sys(
    keys: map<KeyId, KeyRow>, desks: map<nat, Desk>, hist: map<nat, History>,
    owners: map<KeyId, Pid>, drafts: map<KeyId, KeyRow>, locks: map<nat, Pid>, sessions: map<Pid, Session>,
    calls: seq<Call>, book: seq<Call>, fate: map<KeyId, Fate>)

  const START := Sys(map[], map[], map[], map[], map[], map[], map[], [], [], map[])

  /** How the way to create_order ends. Misspelled: the side or type is not in the enums. */
  datatype GateVerdict = Off | Misspelled | Refuse | Break | Pass

  /** What a session gets to hear: a state of the order, possibly overtaken by now,
      an error, or something it cannot interpret. */
  datatype Heard = Ack(status: OrderStatus) | Failure | Garbled

  datatype Step =
    | Begin(p: Pid, req: Request)
    | Reserve(p: Pid)
    | Load(p: Pid)
    | Decline(p: Pid, garbled: bool)
    | ReserveInner(p: Pid)
    | Simulate(p: Pid, market: SimulationLedger.Market)
    | Gate(p: Pid, verdict: GateVerdict)
    | Accept(call: nat, fate: Fate)
    | Evolve(cid: KeyId, fate: Fate)
    | Reply(p: Pid, heard: Heard)
    | Confirm(p: Pid, heard: Heard)
    | Reconcile(p: Pid, heard: Heard)
    | Commit(p: Pid)
    | Crash(p: Pid)

  // ---- Identifiers -------------------------------------------------------------------------

  function EndpointOf(req: Request): Endpoint {
    match req
    case PlaceOrder(_, close, _, _, _, _, _, _) => if close then ClosePosition else Orders
    case Transition(_, bot, _, op) => TransitionBot(op, bot)
    case Manage(_, bot, _, event) =>
      if event.UpdateTarget? then UpdateBot(bot) else if event.Stop? then StopBot(bot) else ActivateLive(bot)
    case Remove(_, bot, _) => DeleteBot(bot)
    case Open(_, _, _, _, _, _) => CreateBot
  }

  function OuterId(req: Request): KeyId { KeyId(req.user, EndpointOf(req), Client(req.text)) }

  function InnerId(req: Request, mode: Mode): KeyId
    requires req.Transition?
  {
    InnerKey(req.user, req.op, req.bot, req.text, mode)
  }

  /** The client order id under which a request reaches the exchange. */
  function CidOf(req: Request): KeyId {
    if req.Transition? then InnerId(req, LIVE) else OuterId(req)
  }

  function PayloadOf(req: Request): Payload {
    match req
    case PlaceOrder(_, close, _, symbol, side, orderType, quantity, price) =>
      if close then ClosePayload(symbol, quantity) else OrderPayload(symbol, side, orderType, quantity, price)
    case Transition(_, bot, _, _) => BotPayload(bot)
    case Manage(_, bot, _, event) => if event.UpdateTarget? then UpdatePayload(bot, event.target) else BotPayload(bot)
    case Remove(_, bot, _) => BotPayload(bot)
    case Open(_, _, _, symbol, target, _) => OpenPayload(symbol, target)
  }

  /** Stop, update and activate are the events a client can ask for directly; a close is a market SELL. */
  predicate WellTyped(req: Request) {
    && (req.Manage? ==> req.event.UpdateTarget? || req.event.Stop? || req.event.GoLive?)
    && (req.PlaceOrder? && req.close ==> req.side == "SELL" && req.orderType == "MARKET")
  }

  function SessionFor(req: Request): Session { Session(req, Starting, None, None, NoWrite, Fresh) }

  predicate IsCaller(n: Session) { n.req.PlaceOrder? || (n.req.Transition? && n.row.Some?) }

  function SideAsked(n: Session): Side
    requires IsCaller(n)
  {
    if n.req.PlaceOrder? then SideNamed(n.req.side) else SideOf(n.req.op)
  }

  function QuantityAsked(n: Session): real
    requires IsCaller(n)
  {
    if n.req.PlaceOrder? then n.req.quantity else QuantityOf(n.req.op, n.row.value.bot)
  }

  /** The order a session asks for: a transition's follows from the row it holds. */
  function CallOf(n: Session, index: nat): Call
    requires IsCaller(n)
  {
    Call(index, CidOf(n.req), SideAsked(n), QuantityAsked(n))
  }

  // ---- Pieces of a step -----------------------------------------------------------------------

  predicate SameExchange(s: Sys, t: Sys) { t.calls == s.calls && t.book == s.book && t.fate == s.fate }

  /** Only uncommitted, session-local parts of the state differ. */
  predicate Uncommitted(s: Sys, t: Sys) {
    SameExchange(s, t) && t.keys == s.keys && t.desks == s.desks && t.hist == s.hist
  }

  /** Session `p` moved on; no key or row changed hands, and what it asked for, read and sent is the same. */
  predicate Local(s: Sys, t: Sys, p: Pid) {
    && Uncommitted(s, t) && t.owners == s.owners && t.locks == s.locks
    && p in s.sessions && p in t.sessions && t.sessions == s.sessions[p := t.sessions[p]]
    && t.sessions[p].req == s.sessions[p].req && t.sessions[p].row == s.sessions[p].row
    && t.sessions[p].call == s.sessions[p].call
  }

  predicate In(s: Sys, p: Pid, phase: Phase) { p in s.sessions && s.sessions[p].phase == phase }

  function At(s: Sys, p: Pid, phase: Phase): (t: Sys)
    requires p in s.sessions
    ensures Local(s, t, p)
  {
    s.(sessions := s.sessions[p := s.sessions[p].(phase := phase)])
  }

  function Claim(s: Sys, p: Pid, id: KeyId, payload: Payload): (t: Sys)
    ensures Uncommitted(s, t)
  {
    s.(owners := s.owners[id := p], drafts := s.drafts[id := Row(payload, None)])
  }

  /** Finalizes a claimed key. */
  function Finalized(drafts: map<KeyId, KeyRow>, id: KeyId, receipt: Receipt): (r: map<KeyId, KeyRow>)
    ensures r.Keys == drafts.Keys
  {
    if id in drafts then drafts[id := drafts[id].(response := Some(receipt))] else drafts
  }

  function Finish(s: Sys, p: Pid, write: Write, drafts: map<KeyId, KeyRow>): (t: Sys)
    requires p in s.sessions
    ensures Local(s, t, p)
  {
    s.(sessions := s.sessions[p := s.sessions[p].(phase := Finished, write := write)], drafts := drafts)
  }

  /** What the end of a live transition stores: the order status `create_order`
      returned under the inner key, if that is not done already, and the answer under
      the client's key, unless the reply was malformed. */
  function LiveDrafts(drafts: map<KeyId, KeyRow>, req: Request, bot: Bot, outcome: Outcome,
                      returned: Option<OrderStatus>): (r: map<KeyId, KeyRow>)
    requires req.Transition?
    ensures r.Keys == drafts.Keys
  {
    var inner := if returned.Some? then Finalized(drafts, InnerId(req, LIVE), OrderReceipt(returned.value)) else drafts;
    if outcome.Malformed? then inner
    else Finalized(inner, OuterId(req), BotReceipt(Some(bot), ReplyOf(bot, outcome)))
  }

  predicate Moving(s: Sys, p: Pid) { p in s.sessions && s.sessions[p].req.Transition? && s.sessions[p].row.Some? }

  predicate Knows(s: Sys, p: Pid) { p in s.sessions && (s.sessions[p].req.Transition? ==> s.sessions[p].row.Some?) }

  /** Ends a live transition: the bot row takes the outcome. */
  function FinishLive(s: Sys, p: Pid, outcome: Outcome, returned: Option<OrderStatus>): (t: Sys)
    requires Moving(s, p)
    ensures Local(s, t, p)
  {
    var n := s.sessions[p];
    var event := LiveTransition(n.req.op, outcome);
    var desk := BotMachine.Step(n.row.value, event);
    Finish(s, p, Put(event, desk), LiveDrafts(s.drafts, n.req, desk.bot, outcome, returned))
  }

  function FinishOrder(s: Sys, p: Pid, status: OrderStatus): (t: Sys)
    requires p in s.sessions
    ensures Local(s, t, p)
  {
    Finish(s, p, NoWrite, Finalized(s.drafts, OuterId(s.sessions[p].req), OrderReceipt(status)))
  }

  /** `create_order` returns this status: a placed order records it; a transition
      settles on it, or reads once more when the order is still open. */
  function Learn(s: Sys, p: Pid, status: OrderStatus): (t: Sys)
    requires Knows(s, p)
    ensures Local(s, t, p)
  {
    var req := s.sessions[p].req;
    if !req.Transition? then FinishOrder(s, p, status)
    else if status in {NEW, PARTIALLY_FILLED} then
      At(s.(drafts := Finalized(s.drafts, InnerId(req, LIVE), OrderReceipt(status))), p, Unsettled)
    else FinishLive(s, p, OutcomeOfStatus(status), Some(status))
  }

  function SafetyNet(s: Sys, p: Pid): (t: Sys)
    requires Knows(s, p)
    ensures Local(s, t, p)
  {
    if s.sessions[p].req.Transition? then FinishLive(s, p, Outcome.Raised, Some(OrderStatus.FAILED))
    else FinishOrder(s, p, OrderStatus.FAILED)
  }

  predicate Plausible(call: Call, fate: Fate) {
    && fate.status in {NEW, PARTIALLY_FILLED, FILLED, CANCELED, PENDING_CANCEL, OrderStatus.REJECTED, EXPIRED}
    && 0.0 <= fate.executed <= call.quantity
    && (fate.status == FILLED ==> fate.executed == call.quantity)
    && (fate.status == OrderStatus.REJECTED ==> fate.executed == 0.0)
  }

  /** A status the exchange may have replied: a final one is still true, an open one
      may be out of date, and a reply without a status leaves PENDING. */
  predicate Reportable(status: OrderStatus, cid: KeyId, fate: map<KeyId, Fate>) {
    && cid in fate && status != OrderStatus.FAILED
    && (IsTerminal(status) ==> fate[cid].status == status)
  }

  predicate Misspells(req: Request) { req.PlaceOrder? && !(NamesSide(req.side) && NamesType(req.orderType)) }

  /** A word the enums do not know raises before the gates, unless trading is off. */
  predicate Reaches(req: Request, verdict: GateVerdict) { verdict.Off? || (verdict.Misspelled? <==> Misspells(req)) }

  // ---- The step relation ---------------------------------------------------------------------------

  predicate Enabled(s: Sys, step: Step) {
    match step
    case Begin(p, req) => p !in s.sessions && WellTyped(req)
    case Reserve(p) =>
      In(s, p, Starting) && OuterId(s.sessions[p].req) !in s.owners
    case Load(p) =>
      && In(s, p, Claimed) && !s.sessions[p].req.PlaceOrder?
      && var req := s.sessions[p].req;
         if req.Open? then req.bot !in s.hist && req.bot !in s.locks
         else Finds(s, req) ==> req.bot !in s.locks
    case Decline(p, _) =>
      In(s, p, Holding) && Moving(s, p) && s.sessions[p].req.op == Resume && s.sessions[p].row.value.bot.mode == LIVE
    case ReserveInner(p) =>
      && In(s, p, Holding) && Moving(s, p)
      && InnerId(s.sessions[p].req, s.sessions[p].row.value.bot.mode) !in s.owners
    case Simulate(p, _) =>
      In(s, p, Keyed) && Moving(s, p) && s.sessions[p].row.value.bot.mode == SIMULATION
    case Gate(p, verdict) =>
      && p in s.sessions
      && var n := s.sessions[p];
         && (|| (n.req.PlaceOrder? && n.phase == Claimed)
             || (Moving(s, p) && n.phase == Keyed && n.row.value.bot.mode == LIVE))
         && Reaches(n.req, verdict)
         && (verdict.Pass? ==> QuantityAsked(n) > 0.0)
    case Accept(call, fate) =>
      && call < |s.calls| && s.calls[call].cid !in s.fate && Plausible(s.calls[call], fate)
    case Evolve(cid, fate) =>
      && cid in s.fate && !IsTerminal(s.fate[cid].status) && fate.executed >= s.fate[cid].executed
      && exists i :: 0 <= i < |s.book| && s.book[i].cid == cid && Plausible(s.book[i], fate)
    case Reply(p, heard) =>
      && In(s, p, Sent) && Knows(s, p) && s.sessions[p].call.Some? && s.sessions[p].call.value < |s.calls|
      && (heard.Ack? ==> s.calls[s.sessions[p].call.value] in s.book
                         && Reportable(heard.status, CidOf(s.sessions[p].req), s.fate))
    case Confirm(p, heard) =>
      && In(s, p, Doubtful) && Knows(s, p)
      && (heard.Ack? ==> Reportable(heard.status, CidOf(s.sessions[p].req), s.fate))
    case Reconcile(p, heard) =>
      && In(s, p, Unsettled) && Moving(s, p)
      && (heard.Ack? ==> Reportable(heard.status, CidOf(s.sessions[p].req), s.fate))
    case Commit(p) => In(s, p, Finished)
    case Crash(p) => p in s.sessions
  }

  function Apply(s: Sys, step: Step): Sys
    requires Enabled(s, step)
  {
    match step
    case Begin(p, req) => s.(sessions := s.sessions[p := SessionFor(req)])
    case Reserve(p) => ApplyReserve(s, p)
    case Load(p) => ApplyLoad(s, p)
    case Decline(p, garbled) => FinishLive(s, p, if garbled then Malformed else Rejected, None)
    case ReserveInner(p) => ApplyReserveInner(s, p)
    case Simulate(p, market) => ApplySimulate(s, p, market)
    case Gate(p, verdict) => ApplyGate(s, p, verdict)
    case Accept(call, fate) =>
      s.(book := s.book + [s.calls[call]], fate := s.fate[s.calls[call].cid := fate])
    case Evolve(cid, fate) => s.(fate := s.fate[cid := fate])
    case Reply(p, heard) =>
      if heard.Ack? then Learn(s, p, heard.status)
      else if heard.Failure? then At(s, p, Doubtful)
      else SafetyNet(s, p)
    case Confirm(p, heard) =>
      if heard.Ack? then Learn(s, p, heard.status)
      else if heard.Failure? then Learn(s, p, OrderStatus.FAILED)
      else SafetyNet(s, p)
    case Reconcile(p, heard) =>
      FinishLive(s, p, if heard.Ack? then OutcomeOfStatus(heard.status)
                       else if heard.Failure? then Unresolved else Malformed, None)
    case Commit(p) => ApplyCommit(s, p)
    case Crash(p) => Leave(s, p)
  }

  /** A committed row answers at once; otherwise the key is claimed. */
  function ApplyReserve(s: Sys, p: Pid): (t: Sys)
    requires p in s.sessions
    ensures Uncommitted(s, t)
  {
    var req := s.sessions[p].req;
    if OuterId(req) in s.keys then
      var answer := Answered(s.keys[OuterId(req)], PayloadOf(req));
      s.(sessions := s.sessions[p := s.sessions[p].(phase := Finished, write := NoWrite, answer := answer)])
    else At(Claim(s, p, OuterId(req), PayloadOf(req)), p, Claimed)
  }

  /** Where loading its bot's row leaves a session: only a transition goes on with the row. */
  datatype Landing = Landing(phase: Phase, row: Option<Desk>, write: Write, receipt: Option<Receipt>)

  function Ending(write: Write, receipt: Receipt): Landing { Landing(Finished, None, write, Some(receipt)) }

  function LandingOf(req: Request, desk: Desk): Landing
    requires !req.PlaceOrder? && !req.Open?
  {
    match req
    case Transition(_, _, _, op) =>
      if desk.bot.status == From(op) then Landing(Holding, Some(desk), NoWrite, None)
      else Ending(NoWrite, BotReceipt(Some(desk.bot), Declined))
    case Manage(_, _, _, event) =>
      if Admits(desk.bot, event) then
        var after := BotMachine.Step(desk, event);
        Ending(Put(event, after), BotReceipt(Some(after.bot), Now(after.bot.status)))
      else Ending(NoWrite, BotReceipt(Some(desk.bot), Declined))
    case Remove(_, _, _) =>
      if desk.bot.status in {PAUSED, STOPPED} then Ending(Drop, BotReceipt(None, Deleted))
      else Ending(NoWrite, BotReceipt(Some(desk.bot), Declined))
  }

  function Land(s: Sys, p: Pid, l: Landing): (t: Sys)
    requires p in s.sessions
    ensures Uncommitted(s, t)
  {
    var n := s.sessions[p];
    s.(sessions := s.sessions[p := n.(phase := l.phase, row := l.row, write := l.write)],
       drafts := if l.receipt.Some? then Finalized(s.drafts, OuterId(n.req), l.receipt.value) else s.drafts)
  }

  predicate Finds(s: Sys, req: Request)
    requires !req.PlaceOrder?
  {
    req.bot in s.desks && s.desks[req.bot].bot.user == req.user
  }

  /** The row lock, always taken after the key was claimed. */
  function ApplyLoad(s: Sys, p: Pid): (t: Sys)
    requires p in s.sessions && !s.sessions[p].req.PlaceOrder?
    ensures Uncommitted(s, t)
  {
    var req := s.sessions[p].req;
    if req.Open? then
      var bot := NewDesk(req.user, req.symbol, req.target, req.capital).bot;
      Land(s.(locks := s.locks[req.bot := p]), p, Ending(Create, BotReceipt(Some(bot), Now(PAUSED))))
    else if !Finds(s, req) then Land(s, p, Ending(NoWrite, BotReceipt(None, Declined)))
    else Land(s.(locks := s.locks[req.bot := p]), p, LandingOf(req, s.desks[req.bot]))
  }

  /** Claims the derived key. If a committed row already answers it, its stored
      outcome is used, and anything unusable counts as an exception. */
  function ApplyReserveInner(s: Sys, p: Pid): (t: Sys)
    requires Moving(s, p)
    ensures Uncommitted(s, t)
  {
    var req := s.sessions[p].req;
    var bot := s.sessions[p].row.value.bot;
    var payload := InnerPayload(req.op, req.bot, bot);
    var id := InnerId(req, bot.mode);
    if id !in s.keys then At(Claim(s, p, id, payload), p, Keyed)
    else
      var answer := Answered(s.keys[id], payload);
      if answer.Replay? && answer.response.OrderReceipt? then
        FinishLive(s, p, OutcomeOfStatus(answer.response.status), None)
      else FinishLive(s, p, Outcome.Raised, None)
  }

  /** The status a simulated attempt reports. */
  function SimulatedStatus(outcome: Outcome): OrderStatus {
    if outcome.Filled? then FILLED else if outcome.Unresolved? then OrderStatus.FAILED else OrderStatus.REJECTED
  }

  function ApplySimulate(s: Sys, p: Pid, market: SimulationLedger.Market): (t: Sys)
    requires Moving(s, p)
    ensures Local(s, t, p)
  {
    var req := s.sessions[p].req;
    var before := s.sessions[p].row.value;
    var event := SimTransition(req.op, market);
    var desk := BotMachine.Step(before, event);
    var outcome := BotMachine.OutcomeOf(AttemptOf(before, req.op, market));
    // The simulated pipeline has no safety net: an exception leaves its own key unanswered.
    var inner := if outcome.Raised? then s.drafts
                 else Finalized(s.drafts, InnerId(req, SIMULATION), OrderReceipt(SimulatedStatus(outcome)));
    Finish(s, p, Put(event, desk),
           Finalized(inner, OuterId(req), BotReceipt(Some(desk.bot), ReplyOf(desk.bot, outcome))))
  }

  function ApplyGate(s: Sys, p: Pid, verdict: GateVerdict): (t: Sys)
    requires Knows(s, p) && IsCaller(s.sessions[p])
    ensures !verdict.Pass? ==> Local(s, t, p)
  {
    var n := s.sessions[p];
    match verdict
    case Off =>
      if n.req.Transition? then FinishLive(s, p, Disabled, Some(OrderStatus.REJECTED))
      else FinishOrder(s, p, OrderStatus.REJECTED)
    case Misspelled => Finish(s, p, NoWrite, s.drafts)
    case Refuse =>
      if n.req.Transition? then FinishLive(s, p, Rejected, Some(OrderStatus.REJECTED))
      else FinishOrder(s, p, OrderStatus.REJECTED)
    case Break => SafetyNet(s, p)
    case Pass =>
      var index := |s.calls|;
      s.(sessions := s.sessions[p := n.(phase := Sent, call := Some(index))], calls := s.calls + [CallOf(n, index)])
  }

  predicate Owns(s: Sys, p: Pid, id: KeyId) { id in s.owners && s.owners[id] == p }

  function OthersKeys(owners: map<KeyId, Pid>, p: Pid): map<KeyId, Pid> {
    map id | id in owners && owners[id] != p :: owners[id]
  }

  function OthersLocks(locks: map<nat, Pid>, p: Pid): map<nat, Pid> {
    map b | b in locks && locks[b] != p :: locks[b]
  }

  /** The rows a session has claimed: what its commit adds and its crash loses. */
  function Kept(s: Sys, p: Pid): map<KeyId, KeyRow> {
    map id | id in s.drafts && Owns(s, p, id) :: s.drafts[id]
  }

  /** Ends a session without keeping anything it wrote. */
  function Leave(s: Sys, p: Pid): (t: Sys)
    ensures Uncommitted(s, t)
  {
    s.(owners := OthersKeys(s.owners, p),
       drafts := map id | id in s.drafts && !Owns(s, p, id) :: s.drafts[id],
       locks := OthersLocks(s.locks, p),
       sessions := s.sessions - {p})
  }

  /** The committed bot rows and histories once a session's write is in. */
  datatype Rows = Rows(desks: map<nat, Desk>, hist: map<nat, History>)

  function RowsAfter(n: Session, desks: map<nat, Desk>, hist: map<nat, History>): Rows {
    match n.write
    case NoWrite => Rows(desks, hist)
    case Put(event, desk) =>
      if !n.req.PlaceOrder? && n.req.bot in hist then
        var h := hist[n.req.bot];
        Rows(desks[n.req.bot := desk], hist[n.req.bot := h.(events := h.events + [event], last := desk)])
      else Rows(desks, hist)
    case Create =>
      if n.req.Open? then
        var desk := NewDesk(n.req.user, n.req.symbol, n.req.target, n.req.capital);
        Rows(desks[n.req.bot := desk], hist[n.req.bot := History(desk, [], desk)])
      else Rows(desks, hist)
    case Drop => if n.req.Remove? then Rows(desks - {n.req.bot}, hist) else Rows(desks, hist)
  }

  function ApplyCommit(s: Sys, p: Pid): (t: Sys)
    requires p in s.sessions
    ensures SameExchange(s, t)
  {
    var rows := RowsAfter(s.sessions[p], s.desks, s.hist);
    Leave(s, p).(keys := s.keys + Kept(s, p), desks := rows.desks, hist := rows.hist)
  }

  /** A disabled step is a session waiting, or an environment move that cannot happen. */
  function Next(s: Sys, step: Step): Sys {
    if Enabled(s, step) then Apply(s, step) else s
  }

  function Run(s: Sys, steps: seq<Step>): Sys {
    if steps == [] then s else Next(Run(s, steps[..|steps| - 1]), steps[|steps| - 1])
  }

  function Reached(steps: seq<Step>): Sys { Run(START, steps) }

  ghost predicate CrashFree(steps: seq<Step>) {
    forall i :: 0 <= i < |steps| ==> !steps[i].Crash?
  }

  // ---- Lost calls ---------------------------------------------------------------------------------

  /** A session rolls back although it has called the exchange under this client order id. */
  predicate LosesCall(s: Sys, step: Step, id: KeyId) {
    && step.Crash? && step.p in s.sessions
    && s.sessions[step.p].call.Some? && CidOf(s.sessions[step.p].req) == id
  }

  predicate LosesCallAt(steps: seq<Step>, i: nat, id: KeyId)
    requires i < |steps|
  {
    LosesCall(Reached(steps[..i]), steps[i], id)
  }

  /** No rollback of the run comes after a call under this id. */
  ghost predicate KeepsCalls(steps: seq<Step>, id: KeyId) {
    forall i :: 0 <= i < |steps| ==> !LosesCallAt(steps, i, id)
  }

  /** The client order ids of one bot's orders. */
  predicate IsIdOf(id: KeyId, b: nat) { id.key.Inner? && id.key.bot == b }

  ghost predicate KeepsCallsOf(steps: seq<Step>, b: nat) {
    forall id :: IsIdOf(id, b) ==> KeepsCalls(steps, id)
  }
}
