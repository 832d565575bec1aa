/** The bot operations, as the service performs them on rows and keys. */
module BotService {
  import opened Common
  import opened Idempotency
  import opened Reconciliation
  import opened SimulationLedger
  import opened BotMachine
  import opened Requests
  import opened OrderService
  import opened SimulationOrderService
  import Validator = OrderValidator
  import Risk = RiskEngine

  /** Free quote balance and price, read before a live resume. */
  datatype Funds = Funds(available: real, price: real)

  /** What one transition hears from outside, whichever mode it runs in. */
  datatype Weather = Weather(order: World, funds: Answer<Funds>, reread: Answer<ExchangeOrder>, market: Market)

  function SubmissionOf(op: Op, bot: Bot): Submission {
    Submission(bot.symbol, SideText(SideOf(op)), "MARKET", QuantityOf(op, bot), None)
  }

  /** The balance check lets a live resume go on. */
  predicate Funded(op: Op, bot: Bot, w: Weather) {
    op.Resume? ==> w.funds.Ok? && QuantityOf(op, bot) * w.funds.value.price <= w.funds.value.available
  }

  /** How a live transition comes out, read off the replies it gets. */
  function LiveOutcome(op: Op, bot: Bot, w: Weather): Outcome {
    if op.Resume? && w.funds.OtherFailure? then Malformed
    else if !Funded(op, bot, w) then Outcome.Rejected
    else PlacedOutcome(SubmissionOf(op, bot), w)
  }

  /** ... once the order is handed to the order service. */
  function PlacedOutcome(o: Submission, w: Weather): Outcome {
    if !w.order.permitted then Disabled
    else if Trips(o, w.order) then Outcome.Raised
    else
      var row := RowAfter(o, w.order);
      if row.status !in {NEW, PARTIALLY_FILLED} then OutcomeOfStatus(row.status)
      else if w.reread.BinanceFailure? then Unresolved
      else if w.reread.OtherFailure? || !WellFormed(w.reread.value) then Malformed
      else OutcomeOfStatus(Updated(row, w.reread.value).status)
  }

  /** What the order row has been through: its submission and, if it came back open, one read. */
  function LinkedRow(o: Submission, w: Weather): OrderRow {
    Touched(RowAfter(o, w.order), BotRead(w.reread, w.order.now))
  }

  /** The status `create_order` returns and stores under its key. */
  function PlacedStatus(o: Submission, w: Weather): OrderStatus {
    if w.order.permitted then RowAfter(o, w.order).status else OrderStatus.REJECTED
  }

  /** What a transition leaves under the key it derives for its order: the order it asked for and the
      order's status; no row if the balance check stopped it, no response if a simulated order raised. */
  function InnerRow(op: Op, b: nat, d: Desk, w: Weather): Option<KeyRow> {
    if d.bot.mode == SIMULATION then
      Some(Row(InnerPayload(op, b, d.bot), ReceiptOf(AttemptOf(d, op, w.market))))
    else if Funded(op, d.bot, w) then
      Some(Row(InnerPayload(op, b, d.bot), Some(OrderReceipt(PlacedStatus(SubmissionOf(op, d.bot), w)))))
    else None
  }

  /** ... as the order service writes it. */
  function PlacedRow(o: Submission, w: Weather): KeyRow {
    Row(OrderPayload(o.symbol, o.side, o.orderType, o.quantity, o.price), Some(OrderReceipt(PlacedStatus(o, w))))
  }

  function WithRow(rows: map<KeyId, KeyRow>, id: KeyId, row: Option<KeyRow>): map<KeyId, KeyRow> {
    if row.Some? then rows[id := row.value] else rows
  }

  /** A live transition settles on what its order row finally says: FILLED completes it and was
      reported by the exchange, REJECTED takes it back, and nothing else moves the position. */
  lemma OutcomeFollowsTheRow(op: Op, bot: Bot, w: Weather)
    requires Funded(op, bot, w) && w.order.permitted
    ensures var o, outcome := SubmissionOf(op, bot), LiveOutcome(op, bot, w);
            && (outcome.Filled? <==> LinkedRow(o, w).status == FILLED && !outcome.Malformed?)
            && (outcome.Rejected? <==> LinkedRow(o, w).status == OrderStatus.REJECTED && !outcome.Malformed?)
            && (outcome.Filled? ==>
                  && GateOf(o, w.order).Passes?
                  && (ReportsFilled(TouchOf(o, w.order)) || ReportsFilled(BotRead(w.reread, w.order.now))))
            && (Settle(bot, op, outcome).current != bot.current ==> outcome.Filled?)
  {
    var o := SubmissionOf(op, bot);
    SubmittedRowIsSealed(o, w.order);
    TouchFacts(RowAfter(o, w.order), BotRead(w.reread, w.order.now));
  }

  // ---- The four ends of a transition ----------------------------------------------------------------------
  //
  // Each says at once what has become of the bot, what the client's key stores and what the client hears.

  /** The bot is where the operation leads, and the answer is its new status. */
  ghost predicate Completed(op: Op, before: Bot, after: Bot, stored: Option<Receipt>, r: Reply) {
    && after == (if op.Pause? then before.(status := PAUSED, current := 0.0)
                 else before.(status := ACTIVE, current := before.target))
    && stored == Some(BotReceipt(Some(after), Now(if op.Pause? then PAUSED else ACTIVE)))
    && r == Done(stored.value)
  }

  /** The bot is as before, and the answer is REJECTED. */
  ghost predicate TakenBack(before: Bot, after: Bot, stored: Option<Receipt>, r: Reply) {
    after == before && stored == Some(BotReceipt(Some(before), Declined)) && r == Done(stored.value)
  }

  /** The bot is in ERROR with the holding it had, and the stored answer is FAILED; the client may get an
      exception instead. */
  ghost predicate Faulted(before: Bot, after: Bot, stored: Option<Receipt>, r: Reply) {
    && after == before.(status := ERROR) && stored == Some(BotReceipt(Some(after), BotReply.Failed))
    && (r == Reply.Raised || r == Done(stored.value))
  }

  /** The bot is between two states, and there is no answer but an exception. */
  ghost predicate Stranded(op: Op, before: Bot, after: Bot, stored: Option<Receipt>, r: Reply) {
    after == before.(status := if op.Pause? then PAUSING else RESUMING) && stored == None && r == Reply.Raised
  }

  /** The end that each outcome means. */
  ghost predicate EndsAs(outcome: Outcome, op: Op, before: Bot, after: Bot, stored: Option<Receipt>, r: Reply) {
    match outcome
    case Disabled => TakenBack(before, after, stored, r)
    case Rejected => TakenBack(before, after, stored, r)
    case Filled => Completed(op, before, after, stored, r)
    case Unresolved => Faulted(before, after, stored, r) && r.Done?
    case Raised => Faulted(before, after, stored, r) && r.Raised?
    case Malformed => Stranded(op, before, after, stored, r)
  }

  /** The end of a simulated transition, read off the row it added to the account: filled, it is completed;
      REJECTED or without the switch, it is taken back; FAILED or without a row, the bot is in ERROR. */
  ghost predicate SimulatedEnd(op: Op, before: Desk, after: Desk, permitted: bool, stored: Option<Receipt>, r: Reply) {
    var old', new' := before.ledger.orders, after.ledger.orders;
    if |new'| == |old'| then
      && after.ledger == before.ledger
      && (if permitted then Faulted(before.bot, after.bot, stored, r) && r.Raised?
          else TakenBack(before.bot, after.bot, stored, r))
    else
      && |new'| == |old'| + 1 && new' == old' + [new'[|old'|]]
      && var row := new'[|old'|];
      && row.side == (if op.Pause? then SELL else BUY)
      && row.quantity == (if op.Pause? then before.bot.current else before.bot.target)
      && (if row.FilledOrder? then Completed(op, before.bot, after.bot, stored, r)
          else if row.status.Rejected? then TakenBack(before.bot, after.bot, stored, r)
          else Faulted(before.bot, after.bot, stored, r) && r.Done?)
  }

  /** What the order row of a live transition says in the end, and what the key behind it stores. */
  datatype Placed = Placed(side: Side, quantity: real, submitted: bool, final: OrderStatus, key: KeyRow)

  /** The end of a live transition. Unknown or insufficient funds and the switch take it back without an order.
      With one, the final status of its row decides: FILLED completes, REJECTED takes back, any other is an
      ERROR. The client gets an exception for a FAILED order unless the exchange refused both calls. A row that
      came back open and could not be read again strands the bot. */
  ghost predicate LiveEnd(op: Op, before: Bot, after: Bot, w: Weather, placed: Option<Placed>, stored: Option<Receipt>,
                          r: Reply)
  {
    if op.Resume? && w.funds.OtherFailure? then placed.None? && Stranded(op, before, after, stored, r)
    else if (op.Resume? && (w.funds.BinanceFailure? || before.target * w.funds.value.price > w.funds.value.available))
            || !w.order.permitted then
      placed.None? && TakenBack(before, after, stored, r)
    else
      && placed.Some? && var order := placed.value;
      && order.side == (if op.Pause? then SELL else BUY)
      && order.quantity == (if op.Pause? then before.current else before.target)
      && order.key.payload
         == OrderPayload(before.symbol, if op.Pause? then "SELL" else "BUY", "MARKET", order.quantity, None)
      && (if order.key.response in {Some(OrderReceipt(NEW)), Some(OrderReceipt(PARTIALLY_FILLED))}
             && (w.reread.OtherFailure? || (w.reread.Ok? && !WellFormed(w.reread.value))) then
            Stranded(op, before, after, stored, r)
          else match order.final
               case FILLED => Completed(op, before, after, stored, r)
               case REJECTED => TakenBack(before, after, stored, r)
               case _ =>
                 && Faulted(before, after, stored, r)
                 && (r.Raised? <==>
                       order.final == OrderStatus.FAILED
                       && !(order.submitted && w.order.created.BinanceFailure? && w.order.confirmed.BinanceFailure?)))
  }

  /** How the order row and its key look once the order service has heard this. */
  ghost function PlacedFor(o: Submission, w: Weather): Option<Placed> {
    if w.order.permitted then
      Some(Placed(if o.side == "BUY" then BUY else SELL, o.quantity, GateOf(o, w.order).Passes?, LinkedRow(o, w).status,
                  PlacedRow(o, w)))
    else None
  }

  lemma OutcomeIsTheEnd(op: Op, before: Bot, after: Bot, w: Weather, placed: Option<Placed>, stored: Option<Receipt>,
                        r: Reply, row: OrderRow, final: OrderStatus)
    requires EndsAs(LiveOutcome(op, before, w), op, before, after, stored, r)
    requires placed == if Funded(op, before, w) then PlacedFor(SubmissionOf(op, before), w) else None
    requires row == RowAfter(SubmissionOf(op, before), w.order)
    requires final == LinkedRow(SubmissionOf(op, before), w).status
    ensures LiveEnd(op, before, after, w, placed, stored, r)
  {
    if Funded(op, before, w) && w.order.permitted {
      FinalStatus(SubmissionOf(op, before), w, row, final);
    }
  }

  /** What the final status has to do with the first one, and with how the submission ended. */
  lemma FinalStatus(o: Submission, w: Weather, row: OrderRow, final: OrderStatus)
    requires row == RowAfter(o, w.order) && final == LinkedRow(o, w).status
    ensures row.status !in {NEW, PARTIALLY_FILLED} ==> final == row.status
    ensures row.status in {NEW, PARTIALLY_FILLED} ==>
              && final != OrderStatus.FAILED && !Trips(o, w.order)
              && (w.reread.BinanceFailure? ==> final == row.status)
              && (w.reread.Ok? && WellFormed(w.reread.value) ==> final == Updated(row, w.reread.value).status)
    ensures row.status == OrderStatus.FAILED ==>
              (Trips(o, w.order) <==> !(&& GateOf(o, w.order).Passes? && w.order.created.BinanceFailure?
                                        && w.order.confirmed.BinanceFailure?))
    ensures Trips(o, w.order) ==> row.status == OrderStatus.FAILED
  {
    SubmittedRowIsSealed(o, w.order);
    SubmissionComesOutExactly(o, w.order, row);
  }

  // ---- Replies that strand a bot ------------------------------------------------------------------------

  /** The exceptions nothing catches: while the funds for a resume are read, and while an order that
      came back open is read once more, or its reply cannot be interpreted. */
  ghost predicate Strands(op: Op, bot: Bot, w: Weather) {
    var o := SubmissionOf(op, bot);
    || (op.Resume? && w.funds.OtherFailure?)
    || (&& Funded(op, bot, w) && w.order.permitted && !Trips(o, w.order)
        && RowAfter(o, w.order).status in {NEW, PARTIALLY_FILLED}
        && (w.reread.OtherFailure? || (w.reread.Ok? && !WellFormed(w.reread.value))))
  }

  /** A live bot is left in PAUSING or RESUMING by exactly these replies. */
  lemma StrandedExactlyByTheseReplies(d: Desk, op: Op, w: Weather)
    requires d.bot.mode == LIVE && d.bot.status == From(op)
    ensures BotMachine.Step(d, LiveTransition(op, LiveOutcome(op, d.bot, w))).bot.status == During(op)
       <==> Strands(op, d.bot, w)
  {
  }

  /** An exchange, an account and limits that let exactly this quantity through, and then a status
      that is not in the table. */
  function StrandingWeather(symbol: string, quantity: real): Weather {
    var limits := Risk.RiskLimits(Some(quantity), Some(100.0), Some(100.0), Some(100.0), Some(1), Some({symbol}));
    var account := Account(Risk.RiskSnapshot(quantity, 0.0, 0.0, 0, 0.0), false);
    var filters := Validator.SymbolFilters(true, quantity, quantity, 0.0, 0.0, 0.0, 0.0, 0.0);
    var created := ExchangeOrder(Some("NEW"), Some("1"), None, None);
    Weather(World(true, Ok(1.0), Ok(filters), limits, Ok(account), Ok(created), BinanceFailure, 1),
            Ok(Funds(quantity, 1.0)), Ok(created.(status := Some("NOT_IN_TABLE"))),
            Market(true, Ok(1.0), Ok(filters), limits, 0.0, 0.0, 1, 0))
  }

  /** Such replies exist for every live bot with something to trade, in both directions. */
  lemma EveryLiveBotCanBeStranded(d: Desk, op: Op, w: Weather)
    requires d.bot.mode == LIVE && d.bot.status == From(op) && QuantityOf(op, d.bot) > 0.0
    requires w == StrandingWeather(d.bot.symbol, QuantityOf(op, d.bot))
    ensures BotMachine.Step(d, LiveTransition(op, LiveOutcome(op, d.bot, w))).bot.status == During(op)
  {
    var o := SubmissionOf(op, d.bot);
    assert ObeysRules(o, w.order) && StaysWithinLimits(o, w.order);
    GatePassesExactlyWithinRulesAndLimits(o, w.order);
    StrandedExactlyByTheseReplies(d, op, w);
  }

  ghost predicate DerivedKeysHaveOrigins(rows: map<KeyId, KeyRow>) {
    forall id :: id in rows && id.key.Inner? ==> OuterOf(id) in rows
  }

  /** A fresh client key has no derived key yet, and adding both keeps the origins. */
  lemma OriginsKept(rows: map<KeyId, KeyRow>, id: KeyId, mode: Mode, rows': map<KeyId, KeyRow>)
    requires DerivedKeysHaveOrigins(rows) && id !in rows && id.endpoint.TransitionBot? && id.key.Client?
    ensures var inner := InnerKey(id.user, id.endpoint.op, id.endpoint.bot, id.key.text, mode);
            && inner !in rows
            && (rows.Keys + {id} <= rows'.Keys <= rows.Keys + {id, inner} ==> DerivedKeysHaveOrigins(rows'))
  {
    var inner := InnerKey(id.user, id.endpoint.op, id.endpoint.bot, id.key.text, mode);
    assert OuterOf(inner) == id;
    if rows.Keys + {id} <= rows'.Keys <= rows.Keys + {id, inner} {
      forall i | i in rows' && i.key.Inner? ensures OuterOf(i) in rows' {
        assert i in rows.Keys + {id, inner};
      }
    }
  }

  class BotService {
    const keys: KeyTable<Payload, Receipt>
    const orderService: OrderService
    const simulation: SimulationOrderService
    var bots: map<nat, BotRecord>

    constructor (keys: KeyTable<Payload, Receipt>)
      requires keys.rows == map[]
      ensures Valid() && this.keys == keys && bots == map[] && fresh(orderService)
    {
      this.keys := keys;
      orderService := new OrderService(keys);
      simulation := new SimulationOrderService(keys);
      bots := map[];
    }

    /** One table of keys for all services; every derived key has its client key; every
        bot has its own row and account. */
    ghost predicate Valid()
      reads this, keys, orderService
    {
      && orderService.keys == keys && simulation.keys == keys && orderService.Valid()
      && DerivedKeysHaveOrigins(keys.rows)
      && OwnRows(bots)
    }

    static ghost predicate OwnRows(bots: map<nat, BotRecord>) {
      && (forall b :: b in bots ==> bots[b].id == b)
      && (forall a, b :: a in bots && b in bots && a != b ==> bots[a].account != bots[b].account)
    }

    /** The rows a request for this bot may write. */
    ghost function Footprint(b: nat): set<object>
      reads this
    {
      if b in bots then {bots[b], bots[b].account} else {}
    }

    ghost function DeskOf(b: nat): Option<Desk>
      reads this, Footprint(b)
    {
      if b in bots then Some(bots[b].AsDesk()) else None
    }

    /** Locks and loads the bot if it exists and belongs to the user. */
    method LoadBotForUpdate(user: nat, b: nat) returns (bot: Option<BotRecord>)
      ensures bot == if b in bots && bots[b].user == user then Some(bots[b]) else None
    {
      return if b in bots && bots[b].user == user then Some(bots[b]) else None;
    }

    // ---- Status changes without an order ---------------------------------------------------------------

    /** The changes a client can ask for directly: which bot accepts one, and what it makes of it. */
    static ghost predicate Changes(before: Bot, e: Event, after: Bot) {
      match e
      case Stop => before.status in {ACTIVE, PAUSED, ERROR} && after == before.(status := STOPPED)
      case UpdateTarget(target) =>
        before.status == PAUSED && after == (if target.Some? then before.(target := target.value) else before)
      case GoLive(connected) =>
        before.mode == SIMULATION && before.status == PAUSED && connected && after == before.(mode := LIVE)
      case _ => false
    }

    /** A keyed change of one bot row: answered from its key, or performed once and recorded. */
    static ghost predicate Managed(r: Reply, id: KeyId, payload: Payload, e: Event, before: Option<Desk>,
                                   after: Option<Desk>,
                                   rows: map<KeyId, KeyRow>, rows': map<KeyId, KeyRow>,
                                   finalized: seq<KeyId>, finalized': seq<KeyId>)
    {
      if id in rows then
        rows' == rows && finalized' == finalized && after == before && r == Repeated(Answered(rows[id], payload))
      else
        && finalized' == finalized + [id]
        && (if before.None? || before.value.bot.user != id.user then
              rows' == rows[id := Row(payload, Some(BotReceipt(None, Declined)))] && after == before && r == NotFound
            else if !Admits(before.value.bot, e) then
              && rows' == rows[id := Row(payload, Some(BotReceipt(Some(before.value.bot), Declined)))]
              && after == before && r == Refused && forall bot :: !Changes(before.value.bot, e, bot)
            else
              && after == Some(BotMachine.Step(before.value, e))
              && Changes(before.value.bot, e, after.value.bot) && after.value.ledger == before.value.ledger
              && r == Done(BotReceipt(Some(after.value.bot), Now(after.value.bot.status)))
              && rows' == rows[id := Row(payload, Some(r.receipt))])
    }

    method Stop(user: nat, b: nat, text: string) returns (r: Reply)
      requires Valid()
      modifies keys, Footprint(b)
      ensures Valid()
      ensures Managed(r, KeyId(user, StopBot(b), Client(text)), BotPayload(b), Event.Stop, old(DeskOf(b)), DeskOf(b),
                      old(keys.rows), keys.rows, old(keys.finalized), keys.finalized)
    {
      var id := KeyId(user, StopBot(b), Client(text));
      var reservation := keys.Reserve(id, BotPayload(b));
      if !reservation.Fresh? {
        return Repeated(reservation);
      }
      var loaded := LoadBotForUpdate(user, b);
      var done;
      if loaded.None? {
        done := keys.Finalize(id, BotReceipt(None, Declined));
        return NotFound;
      }
      var bot := loaded.value;
      if bot.status !in {ACTIVE, PAUSED, ERROR} {
        done := keys.Finalize(id, BotReceipt(Some(bot.AsBot()), Declined));
        return Refused;
      }
      bot.status := STOPPED;
      r := Done(BotReceipt(Some(bot.AsBot()), Now(STOPPED)));
      done := keys.Finalize(id, r.receipt);
    }

    /** The target may change only while the bot is PAUSED; without one the call succeeds and keeps it. */
    method UpdateBot(user: nat, b: nat, text: string, target: Option<real>) returns (r: Reply)
      requires Valid()
      modifies keys, Footprint(b)
      ensures Valid()
      ensures Managed(r, KeyId(user, Endpoint.UpdateBot(b), Client(text)), UpdatePayload(b, target),
                      UpdateTarget(target),
                      old(DeskOf(b)), DeskOf(b), old(keys.rows), keys.rows, old(keys.finalized), keys.finalized)
    {
      var id := KeyId(user, Endpoint.UpdateBot(b), Client(text));
      var reservation := keys.Reserve(id, UpdatePayload(b, target));
      if !reservation.Fresh? {
        return Repeated(reservation);
      }
      var loaded := LoadBotForUpdate(user, b);
      var done;
      if loaded.None? {
        done := keys.Finalize(id, BotReceipt(None, Declined));
        return NotFound;
      }
      var bot := loaded.value;
      if bot.status != PAUSED {
        done := keys.Finalize(id, BotReceipt(Some(bot.AsBot()), Declined));
        return Refused;
      }
      if target.Some? {
        bot.target := target.value;
      }
      r := Done(BotReceipt(Some(bot.AsBot()), Now(bot.status)));
      done := keys.Finalize(id, r.receipt);
    }

    /** One-way promotion; it needs a PAUSED simulated bot and a connected account. */
    method ActivateLive(user: nat, b: nat, text: string, connected: bool) returns (r: Reply)
      requires Valid()
      modifies keys, Footprint(b)
      ensures Valid()
      ensures Managed(r, KeyId(user, Endpoint.ActivateLive(b), Client(text)), BotPayload(b), GoLive(connected),
                      old(DeskOf(b)), DeskOf(b), old(keys.rows), keys.rows, old(keys.finalized), keys.finalized)
    {
      var id := KeyId(user, Endpoint.ActivateLive(b), Client(text));
      var reservation := keys.Reserve(id, BotPayload(b));
      if !reservation.Fresh? {
        return Repeated(reservation);
      }
      var loaded := LoadBotForUpdate(user, b);
      var done;
      if loaded.None? {
        done := keys.Finalize(id, BotReceipt(None, Declined));
        return NotFound;
      }
      var bot := loaded.value;
      if bot.mode != SIMULATION {
        done := keys.Finalize(id, BotReceipt(Some(bot.AsBot()), Declined));
        return Refused;
      }
      if bot.status != PAUSED {
        done := keys.Finalize(id, BotReceipt(Some(bot.AsBot()), Declined));
        return Refused;
      }
      if !connected {
        done := keys.Finalize(id, BotReceipt(Some(bot.AsBot()), Declined));
        return Refused;
      }
      bot.mode := LIVE;
      r := Done(BotReceipt(Some(bot.AsBot()), Now(bot.status)));
      done := keys.Finalize(id, r.receipt);
    }

    // ---- Creation and deletion ---------------------------------------------------------------------------

    /** A new bot is simulated, PAUSED, flat and funded with the default capital. `b` is its new id. */
    method CreateBot(user: nat, b: nat, symbol: string, target: real, text: string, capital: real) returns (r: Reply)
      requires Valid() && b !in bots
      modifies this, keys
      ensures Valid()
      ensures var id := KeyId(user, Endpoint.CreateBot, Client(text));
              var payload := OpenPayload(symbol, target);
              if id in old(keys.rows) then
                && keys.rows == old(keys.rows) && keys.finalized == old(keys.finalized) && bots == old(bots)
                && r == Repeated(Answered(keys.rows[id], payload))
              else
                && b in bots && bots == old(bots)[b := bots[b]] && fresh(bots[b]) && fresh(bots[b].account)
                && DeskOf(b)
                   == Some(Desk(Bot(user, symbol, SIMULATION, PAUSED, 0.0, target), Ledger(capital, capital, [])))
                && r == Done(BotReceipt(Some(bots[b].AsBot()), Now(PAUSED)))
                && keys.finalized == old(keys.finalized) + [id]
                && keys.rows == old(keys.rows)[id := Row(payload, Some(r.receipt))]
    {
      var id := KeyId(user, Endpoint.CreateBot, Client(text));
      var reservation := keys.Reserve(id, OpenPayload(symbol, target));
      if !reservation.Fresh? {
        return Repeated(reservation);
      }
      var account := new SimulationAccount(capital);
      var bot := new BotRecord(b, user, symbol, target, account);
      bots := bots[b := bot];
      r := Done(BotReceipt(Some(bot.AsBot()), Now(PAUSED)));
      var done := keys.Finalize(id, r.receipt);
    }

    /** Only a PAUSED or STOPPED bot can be deleted; its account goes with it. */
    method DeleteBot(user: nat, b: nat, text: string) returns (r: Reply)
      requires Valid()
      modifies this`bots, keys
      ensures Valid()
      ensures var id := KeyId(user, Endpoint.DeleteBot(b), Client(text));
              var found := b in old(bots) && old(bots)[b].user == user;
              if id in old(keys.rows) then
                && keys.rows == old(keys.rows) && keys.finalized == old(keys.finalized) && bots == old(bots)
                && r == Repeated(Answered(keys.rows[id], BotPayload(b)))
              else
                && keys.finalized == old(keys.finalized) + [id]
                && (if found && old(bots)[b].status in {PAUSED, STOPPED} then
                      && bots == old(bots) - {b} && r == Done(BotReceipt(None, Deleted))
                      && keys.rows == old(keys.rows)[id := Row(BotPayload(b), Some(r.receipt))]
                    else
                      && bots == old(bots) && r == (if found then Refused else NotFound)
                      && keys.rows == old(keys.rows)[id := Row(BotPayload(b), Some(
                           BotReceipt(if found then Some(old(bots)[b].AsBot()) else None, Declined)))])
    {
      var id := KeyId(user, Endpoint.DeleteBot(b), Client(text));
      var reservation := keys.Reserve(id, BotPayload(b));
      if !reservation.Fresh? {
        return Repeated(reservation);
      }
      var loaded := LoadBotForUpdate(user, b);
      var done;
      if loaded.None? {
        done := keys.Finalize(id, BotReceipt(None, Declined));
        return NotFound;
      }
      if loaded.value.status !in {PAUSED, STOPPED} {
        done := keys.Finalize(id, BotReceipt(Some(loaded.value.AsBot()), Declined));
        return Refused;
      }
      bots := bots - {b};
      r := Done(BotReceipt(None, Deleted));
      done := keys.Finalize(id, r.receipt);
    }

    // ---- Pause and resume -----------------------------------------------------------------------------------

    /** The event a transition amounts to. */
    static function EventOf(op: Op, bot: Bot, w: Weather): Event {
      if bot.mode == LIVE then LiveTransition(op, LiveOutcome(op, bot, w)) else SimTransition(op, w.market)
    }

    static function OutcomeIn(op: Op, d: Desk, w: Weather): Outcome {
      if d.bot.mode == LIVE then LiveOutcome(op, d.bot, w) else OutcomeOf(AttemptOf(d, op, w.market))
    }

    /** The derived key is finalized when the order pipeline was entered and answered it. */
    static predicate AnswersInner(op: Op, d: Desk, w: Weather) {
      if d.bot.mode == LIVE then Funded(op, d.bot, w) else !AttemptOf(d, op, w.market).Raised?
    }

    /** Pause or resume. The bot row ends exactly where the lifecycle says, the client's key is
        answered once unless the reply was malformed, and the exchange is called at most once,
        under the derived key and only for a live bot. */
    method Transition(user: nat, b: nat, text: string, op: Op, w: Weather) returns (r: Reply)
      requires Valid()
      modifies keys, orderService, Footprint(b)
      ensures Valid()
      ensures var id := KeyId(user, TransitionBot(op, b), Client(text));
              if id in old(keys.rows) then
                && keys.rows == old(keys.rows) && keys.finalized == old(keys.finalized) && DeskOf(b) == old(DeskOf(b))
                && orderService.calls == old(orderService.calls) && orderService.orders == old(orderService.orders)
                && r == Repeated(Answered(keys.rows[id], BotPayload(b)))
              else if !old(CanTransition(user, b, op)) then
                && TurnedAway(r, id, old(DeskOf(b)), old(keys.rows), keys.rows, old(keys.finalized), keys.finalized)
                && DeskOf(b) == old(DeskOf(b))
                && orderService.calls == old(orderService.calls) && orderService.orders == old(orderService.orders)
              else
                && Traversed(r, id, op, old(DeskOf(b)).value, DeskOf(b), w, old(keys.rows), keys.rows,
                             old(keys.finalized), keys.finalized, old(orderService.calls), orderService.calls)
                && (old(bots[b].mode) == SIMULATION ==> orderService.orders == old(orderService.orders))
      ensures var id := KeyId(user, TransitionBot(op, b), Client(text));
              id !in old(keys.rows) && old(CanTransition(user, b, op)) ==>
                && id in keys.rows
                && EndsTruly(r, op, old(bots[b].AsDesk()), bots[b].AsDesk(), w,
                             PlacedAt(KeyId(user, Orders, Inner(op, b, text))), keys.rows[id].response)
      ensures forall i :: i in old(orderService.orders) ==> unchanged(old(orderService.orders)[i])
    {
      var id := KeyId(user, TransitionBot(op, b), Client(text));
      var reservation := keys.Reserve(id, BotPayload(b));
      if !reservation.Fresh? {
        return Repeated(reservation);
      }
      var loaded := LoadBotForUpdate(user, b);
      if loaded.None? {
        r := TurnAway(id, None, NotFound);
        OriginsKept(old(keys.rows), id, LIVE, keys.rows);
        return;
      }
      var bot := loaded.value;
      OriginsKept(old(keys.rows), id, bot.mode, keys.rows);
      if bot.status != From(op) {
        r := TurnAway(id, Some(bot.AsBot()), Refused);
        return;
      }
      r := TransitionClaimed(bot, id, op, w);
      OriginsKept(old(keys.rows), id, old(bot.mode), keys.rows);
    }

    /** Only an ACTIVE bot of this user can be paused, only a PAUSED one resumed. */
    ghost predicate CanTransition(user: nat, b: nat, op: Op)
      reads this, Footprint(b)
    {
      b in bots && bots[b].user == user && bots[b].status == if op.Pause? then ACTIVE else PAUSED
    }

    /** The order row behind a derived key, if there is one. */
    ghost function PlacedAt(inner: KeyId): Option<Placed>
      reads keys, orderService, orderService.orders.Values
    {
      if inner in orderService.orders && inner in keys.rows then
        var order := orderService.orders[inner];
        Some(Placed(order.side, order.quantity, order.submittedAt.Some?, order.status, keys.rows[inner]))
      else None
    }

    /** Bot, stored answer and reply fit what the order did, simulated or live. */
    static ghost predicate EndsTruly(r: Reply, op: Op, before: Desk, after: Desk, w: Weather, placed: Option<Placed>,
                                     stored: Option<Receipt>)
    {
      if before.bot.mode == SIMULATION then SimulatedEnd(op, before, after, w.market.permitted, stored, r)
      else after.ledger == before.ledger && LiveEnd(op, before.bot, after.bot, w, placed, stored, r)
    }

    /** No such bot for this user, or not in the right status: recorded, and nothing else. */
    static ghost predicate TurnedAway(r: Reply, id: KeyId, before: Option<Desk>, rows: map<KeyId, KeyRow>,
                                      rows': map<KeyId, KeyRow>, finalized: seq<KeyId>, finalized': seq<KeyId>)
      requires id.endpoint.TransitionBot?
    {
      var found := before.Some? && before.value.bot.user == id.user;
      && r == (if found then Refused else NotFound)
      && finalized' == finalized + [id]
      && rows' == rows[id := Row(BotPayload(id.endpoint.bot),
                                 Some(BotReceipt(if found then Some(before.value.bot) else None, Declined)))]
    }

    method TurnAway(id: KeyId, bot: Option<Bot>, reason: Reply) returns (r: Reply)
      requires id in keys.rows
      modifies keys
      ensures r == reason && keys.finalized == old(keys.finalized) + [id]
      ensures keys.rows == old(keys.rows)[id := old(keys.rows)[id].(response := Some(BotReceipt(bot, Declined)))]
    {
      var done := keys.Finalize(id, BotReceipt(bot, Declined));
      return reason;
    }

    method TransitionClaimed(bot: BotRecord, id: KeyId, op: Op, w: Weather) returns (r: Reply)
      requires orderService.keys == keys && simulation.keys == keys && orderService.Valid()
      requires bot.status == From(op) && id == KeyId(bot.user, TransitionBot(op, bot.id), Client(id.key.text))
      requires id in keys.rows && keys.rows[id] == Row(BotPayload(bot.id), None)
      requires InnerKey(bot.user, op, bot.id, id.key.text, bot.mode) !in keys.rows
      modifies keys, orderService, bot, bot.account
      ensures orderService.Valid()
      ensures Traversed(r, id, op, old(bot.AsDesk()), Some(bot.AsDesk()), w, old(keys.rows), keys.rows,
                        old(keys.finalized), keys.finalized, old(orderService.calls), orderService.calls)
      ensures id in keys.rows
           && EndsTruly(r, op, old(bot.AsDesk()), bot.AsDesk(), w,
                        PlacedAt(KeyId(bot.user, Orders, Inner(op, bot.id, id.key.text))), keys.rows[id].response)
      ensures old(bot.mode) == SIMULATION ==> orderService.orders == old(orderService.orders)
      ensures forall i :: i in old(orderService.orders) ==> unchanged(old(orderService.orders)[i])
    {
      if bot.mode == SIMULATION {
        r := TransitionSimulated(bot, id, op, w);
      } else {
        r := TransitionLive(bot, id, op, w);
      }
    }

    /** What a transition leaves behind once its bot was found in the right status. */
    static ghost predicate Traversed(r: Reply, id: KeyId, op: Op, before: Desk, after: Option<Desk>, w: Weather,
                                     rows: map<KeyId, KeyRow>, rows': map<KeyId, KeyRow>,
                                     finalized: seq<KeyId>, finalized': seq<KeyId>,
                                     calls: seq<KeyId>, calls': seq<KeyId>)
      requires id.endpoint.TransitionBot? && id.key.Client?
    {
      var outcome := OutcomeIn(op, before, w);
      var inner := InnerKey(id.user, op, id.endpoint.bot, id.key.text, before.bot.mode);
      && after == Some(BotMachine.Step(before, EventOf(op, before.bot, w)))
      && calls' == (if before.bot.mode == LIVE && Funded(op, before.bot, w) && w.order.permitted
                         && GateOf(SubmissionOf(op, before.bot), w.order).Passes? then calls + [inner] else calls)
      && finalized' == finalized + (if AnswersInner(op, before, w) then [inner] else [])
                                 + (if outcome.Malformed? then [] else [id])
      && rows' == WithRow(rows, inner, InnerRow(op, id.endpoint.bot, before, w))[id := Row(BotPayload(id.endpoint.bot),
           if outcome.Malformed? then None
               else Some(BotReceipt(Some(after.value.bot), ReplyOf(after.value.bot, outcome))))]
      && r == (if outcome.Malformed? || outcome.Raised? then Reply.Raised
               else Done(BotReceipt(Some(after.value.bot), ReplyOf(after.value.bot, outcome))))
    }

    /** Puts the bot into its next state and answers the client's key. */
    method Conclude(bot: BotRecord, id: KeyId, op: Op, ghost before: Bot, outcome: Outcome) returns (r: Reply)
      requires id in keys.rows && bot.AsBot() == before.(status := During(op)) && before.status == From(op)
      requires !outcome.Malformed?
      modifies keys, bot
      ensures bot.AsBot() == Settle(before, op, outcome)
      ensures id in keys.rows && EndsAs(outcome, op, before, bot.AsBot(), keys.rows[id].response, r)
      ensures var receipt := BotReceipt(Some(bot.AsBot()), ReplyOf(bot.AsBot(), outcome));
              && keys.rows == old(keys.rows)[id := old(keys.rows)[id].(response := Some(receipt))]
              && keys.finalized == old(keys.finalized) + [id]
              && r == if outcome.Raised? then Reply.Raised else Done(receipt)
    {
      if outcome.Disabled? || outcome.Rejected? {
        bot.status := From(op);
      } else if outcome.Filled? {
        if op.Pause? {
          bot.current := 0.0;
          bot.status := PAUSED;
        } else {
          bot.current := bot.target;
          bot.status := ACTIVE;
        }
      } else {
        bot.status := ERROR;
      }
      var receipt := BotReceipt(Some(bot.AsBot()), ReplyOf(bot.AsBot(), outcome));
      var found := keys.Finalize(id, receipt);
      return if outcome.Raised? then Reply.Raised else Done(receipt);
    }

    method TransitionSimulated(bot: BotRecord, id: KeyId, op: Op, w: Weather) returns (r: Reply)
      requires simulation.keys == keys && bot.status == From(op) && bot.mode == SIMULATION
      requires id == KeyId(bot.user, TransitionBot(op, bot.id), Client(id.key.text))
      requires id in keys.rows && keys.rows[id] == Row(BotPayload(bot.id), None)
      requires InnerKey(bot.user, op, bot.id, id.key.text, SIMULATION) !in keys.rows
      modifies keys, bot, bot.account
      ensures Traversed(r, id, op, old(bot.AsDesk()), Some(bot.AsDesk()), w, old(keys.rows), keys.rows,
                        old(keys.finalized), keys.finalized, [], [])
      ensures id in keys.rows
           && SimulatedEnd(op, old(bot.AsDesk()), bot.AsDesk(), w.market.permitted, keys.rows[id].response, r)
    {
      ghost var before := bot.AsBot();
      var quantity := if op.Pause? then bot.current else bot.target;
      bot.status := During(op);
      var placed := simulation.PlaceBotOrder(bot, SideOf(op), quantity, Inner(op, bot.id, id.key.text), w.market);
      var outcome := match placed
        case TradingDisabled => Disabled
        case Done(OrderReceipt(status)) => OutcomeOfStatus(status)
        case _ => Outcome.Raised;
      r := Conclude(bot, id, op, before, outcome);
    }

    /** The pieces of a live transition that got past the balance check, put together. */
    static lemma SettledIsTraversed(r: Reply, id: KeyId, op: Op, before: Desk, after: Bot, w: Weather,
                                    rows: map<KeyId, KeyRow>, rows': map<KeyId, KeyRow>, finalized: seq<KeyId>,
                                    finalized': seq<KeyId>, calls: seq<KeyId>, calls': seq<KeyId>)
      requires id.endpoint.TransitionBot? && id.key.Client? && id in rows
      requires rows[id] == Row(BotPayload(id.endpoint.bot), None)
      requires before.bot.mode == LIVE && before.bot.status == From(op) && Funded(op, before.bot, w)
      requires var o, inner := SubmissionOf(op, before.bot), InnerKey(id.user, op, id.endpoint.bot, id.key.text, LIVE);
               var outcome := PlacedOutcome(o, w);
               var receipt := BotReceipt(Some(after), ReplyOf(after, outcome));
               && after == Settle(before.bot, op, outcome)
               && rows' == rows[inner :=
                   Row(InnerPayload(op, id.endpoint.bot, before.bot), Some(OrderReceipt(PlacedStatus(o, w))))]
                               [id := if outcome.Malformed? then rows[id] else rows[id].(response := Some(receipt))]
               && finalized' == finalized + [inner] + (if outcome.Malformed? then [] else [id])
               && r == (if outcome.Malformed? || outcome.Raised? then Reply.Raised else Done(receipt))
               && calls' == (if w.order.permitted && GateOf(o, w.order).Passes? then calls + [inner] else calls)
      ensures Traversed(r, id, op, before, Some(Desk(after, before.ledger)), w, rows, rows', finalized, finalized',
                        calls, calls')
    {
    }

    lemma EndsWithoutOrder(r: Reply, bot: BotRecord, id: KeyId, op: Op, before: Bot, w: Weather)
      requires id in keys.rows && id.key.Client? && !Funded(op, before, w)
      requires EndsAs(LiveOutcome(op, before, w), op, before, bot.AsBot(), keys.rows[id].response, r)
      requires PlacedAt(KeyId(bot.user, Orders, Inner(op, bot.id, id.key.text))) == None
      ensures LiveEnd(op, before, bot.AsBot(), w, PlacedAt(KeyId(bot.user, Orders, Inner(op, bot.id, id.key.text))),
                      keys.rows[id].response, r)
    {
      var o := SubmissionOf(op, before);
      OutcomeIsTheEnd(op, before, bot.AsBot(), w, None, keys.rows[id].response, r, RowAfter(o, w.order),
                      LinkedRow(o, w).status);
    }

    lemma EndsWithOrder(r: Reply, bot: BotRecord, id: KeyId, op: Op, before: Bot, w: Weather)
      requires id in keys.rows && id.key.Client? && Funded(op, before, w)
      requires EndsAs(PlacedOutcome(SubmissionOf(op, before), w), op, before, bot.AsBot(), keys.rows[id].response, r)
      requires PlacedAt(KeyId(bot.user, Orders, Inner(op, bot.id, id.key.text)))
            == PlacedFor(SubmissionOf(op, before), w)
      ensures LiveEnd(op, before, bot.AsBot(), w, PlacedAt(KeyId(bot.user, Orders, Inner(op, bot.id, id.key.text))),
                      keys.rows[id].response, r)
    {
      var o := SubmissionOf(op, before);
      OutcomeIsTheEnd(op, before, bot.AsBot(), w, PlacedFor(o, w), keys.rows[id].response, r, RowAfter(o, w.order),
                      LinkedRow(o, w).status);
    }

    method TransitionLive(bot: BotRecord, id: KeyId, op: Op, w: Weather) returns (r: Reply)
      requires orderService.keys == keys && orderService.Valid() && bot.status == From(op) && bot.mode == LIVE
      requires id == KeyId(bot.user, TransitionBot(op, bot.id), Client(id.key.text))
      requires id in keys.rows && keys.rows[id] == Row(BotPayload(bot.id), None)
      requires InnerKey(bot.user, op, bot.id, id.key.text, LIVE) !in keys.rows
      modifies keys, orderService, bot
      ensures orderService.Valid()
      ensures Traversed(r, id, op, old(bot.AsDesk()), Some(bot.AsDesk()), w, old(keys.rows), keys.rows,
                        old(keys.finalized), keys.finalized, old(orderService.calls), orderService.calls)
      ensures Funded(op, old(bot.AsBot()), w) ==>
                Linked(InnerKey(bot.user, op, bot.id, id.key.text, LIVE), bot.id, SubmissionOf(op, old(bot.AsBot())), w)
      ensures id in keys.rows && bot.account.AsLedger() == old(bot.account.AsLedger())
           && LiveEnd(op, old(bot.AsBot()), bot.AsBot(), w,
                      PlacedAt(KeyId(bot.user, Orders, Inner(op, bot.id, id.key.text))), keys.rows[id].response, r)
      ensures forall i :: i in old(orderService.orders) ==> unchanged(old(orderService.orders)[i])
    {
      ghost var before := bot.AsBot();
      var submission := SubmissionOf(op, bot.AsBot());
      bot.status := During(op);
      if op.Resume? {
        var sufficient := CheckSufficientRealBalance(submission.quantity, w.funds);
        if sufficient.OtherFailure? {
          r := Reply.Raised;
          EndsWithoutOrder(r, bot, id, op, before, w);
          return;
        }
        if !sufficient.value {
          r := Conclude(bot, id, op, before, Outcome.Rejected);
          EndsWithoutOrder(r, bot, id, op, before, w);
          return;
        }
      }
      r := SubmitAndSettle(bot, id, op, before, InnerKey(bot.user, op, bot.id, id.key.text, LIVE), submission, w);
      EndsWithOrder(r, bot, id, op, before, w);
      SettledIsTraversed(r, id, op, old(bot.AsDesk()), bot.AsBot(), w, old(keys.rows), keys.rows, old(keys.finalized),
                         keys.finalized, old(orderService.calls), orderService.calls);
    }

    /** Unknown funds refuse the resume; another exception escapes. */
    method CheckSufficientRealBalance(quantity: real, funds: Answer<Funds>) returns (sufficient: Answer<bool>)
      ensures !sufficient.BinanceFailure? && (sufficient.OtherFailure? <==> funds.OtherFailure?)
      ensures sufficient.Ok? ==>
                (sufficient.value <==> funds.Ok? && quantity * funds.value.price <= funds.value.available)
    {
      if funds.OtherFailure? {
        return OtherFailure;
      }
      if funds.BinanceFailure? {
        return Ok(false);
      }
      var required := quantity * funds.value.price;
      return Ok(required <= funds.value.available);
    }

    method SubmitAndSettle(bot: BotRecord, id: KeyId, op: Op, ghost before: Bot, inner: KeyId, o: Submission,
                           w: Weather)
      returns (r: Reply)
      requires orderService.keys == keys && orderService.Valid() && Spelled(o)
      requires id in keys.rows && keys.rows[id].response == None && inner !in keys.rows && inner.endpoint == Orders
      requires before.status == From(op) && bot.AsBot() == before.(status := During(op))
      modifies keys, orderService, bot
      ensures orderService.Valid()
      ensures bot.AsBot() == Settle(before, op, PlacedOutcome(o, w))
      ensures id in keys.rows && EndsAs(PlacedOutcome(o, w), op, before, bot.AsBot(), keys.rows[id].response, r)
      ensures var outcome := PlacedOutcome(o, w);
              var receipt := BotReceipt(Some(bot.AsBot()), ReplyOf(bot.AsBot(), outcome));
              && keys.rows == old(keys.rows)[inner := PlacedRow(o, w)]
                                            [id := if outcome.Malformed? then old(keys.rows)[id]
                                                   else old(keys.rows)[id].(response := Some(receipt))]
              && keys.finalized == old(keys.finalized) + [inner] + (if outcome.Malformed? then [] else [id])
              && r == (if outcome.Malformed? || outcome.Raised? then Reply.Raised else Done(receipt))
      ensures orderService.calls == if w.order.permitted && GateOf(o, w.order).Passes?
                                    then old(orderService.calls) + [inner] else old(orderService.calls)
      ensures forall i :: i in old(orderService.orders) ==> unchanged(old(orderService.orders)[i])
      ensures Linked(inner, bot.id, o, w)
    {
      var outcome := PlaceLiveOrder(bot, inner, o, w);
      if outcome.Malformed? {
        return Reply.Raised;
      }
      r := Conclude(bot, id, op, before, outcome);
    }

    /** The order row exists exactly if trading is permitted, belongs to the bot, and says what the exchange did. */
    ghost predicate Linked(inner: KeyId, b: nat, o: Submission, w: Weather)
      reads keys, orderService, orderService.orders.Values
    {
      && (inner in orderService.orders <==> w.order.permitted)
      && (inner in orderService.orders ==>
            var order := orderService.orders[inner];
            && order.bot == Some(b) && order.Row() == LinkedRow(o, w)
            && order.side == (if o.side == "BUY" then BUY else SELL) && order.quantity == o.quantity
            && (order.submittedAt.Some? <==> GateOf(o, w.order).Passes?))
      && PlacedAt(inner) == PlacedFor(o, w)
    }

    /** Places the order, tags its row with the bot and reads it back once if it is still open. */
    method PlaceLiveOrder(bot: BotRecord, inner: KeyId, o: Submission, w: Weather) returns (outcome: Outcome)
      requires orderService.keys == keys && orderService.Valid() && Spelled(o)
      requires inner !in keys.rows && inner.endpoint == Orders
      modifies keys, orderService
      ensures orderService.Valid()
      ensures outcome == PlacedOutcome(o, w)
      ensures keys.rows == old(keys.rows)[inner := PlacedRow(o, w)]
      ensures keys.finalized == old(keys.finalized) + [inner]
      ensures orderService.calls == if w.order.permitted && GateOf(o, w.order).Passes?
                                    then old(orderService.calls) + [inner] else old(orderService.calls)
      ensures forall i :: i in old(orderService.orders) ==> unchanged(old(orderService.orders)[i])
      ensures Linked(inner, bot.id, o, w)
    {
      var placed := orderService.CreateOrder(inner.user, o, inner.key, w.order);
      outcome := match placed
        case TradingDisabled => Disabled
        case Done(OrderReceipt(status)) => OutcomeOfStatus(status)
        case _ => Outcome.Raised;
      if inner in orderService.orders {
        var order := orderService.orders[inner];
        order.bot := Some(bot.id);
        if placed.Done? && order.status in {NEW, PARTIALLY_FILLED} {
          outcome := ReconcileOnce(order, w.reread, w.order.now);
        }
      }
    }

    /** One reconciliation read of an order that is still open, never a retry loop. */
    method ReconcileOnce(order: Order, reread: Answer<ExchangeOrder>, now: int) returns (outcome: Outcome)
      requires order.status in {NEW, PARTIALLY_FILLED}
      modifies order
      ensures order.Row() == Touched(old(order.Row()), BotRead(reread, now)) && order.bot == old(order.bot)
      ensures order.submittedAt == old(order.submittedAt)
      ensures match reread
              case Ok(reply) =>
                if WellFormed(reply) then ReflectsAndStamps(order.Row(), reply, old(order.Row()), now)
                else ReflectsInPart(order.Row(), reply, old(order.Row()))
              case _ => order.Row() == old(order.Row())
      ensures outcome == if reread.BinanceFailure? then Unresolved
                         else if reread.OtherFailure? || !WellFormed(reread.value) then Malformed
                         else OutcomeOfStatus(Updated(old(order.Row()), reread.value).status)
    {
      if reread.Ok? {
        TouchedReflects(order.Row(), BotRead(reread, now), reread.value);
      }
      if reread.BinanceFailure? {
        return OutcomeOfStatus(order.status);
      }
      if reread.OtherFailure? {
        return Malformed;
      }
      var changed := ReconcileFromBinancePayload(order, reread.value);
      if changed.None? {
        return Malformed;
      }
      if IsTerminal(order.status) {
        order.terminalAt := Some(now);
      }
      return OutcomeOfStatus(order.status);
    }
  }
  // ---- What a client sees who asks twice --------------------------------------------------------------------

  lemma EndIsStored(r: Reply, op: Op, before: Desk, after: Desk, w: Weather, placed: Option<Placed>,
                    stored: Option<Receipt>)
    requires BotService.EndsTruly(r, op, before, after, w, placed, stored)
    ensures r.Done? || r.Raised?
    ensures r.Done? ==>
              stored == Some(r.receipt) && r.receipt.BotReceipt? && r.receipt.bot == Some(after.bot)
    ensures r.Raised? ==>
              if stored.Some? then
                stored == Some(BotReceipt(Some(after.bot), BotReply.Failed)) && after.bot.status == ERROR
              else after.bot.status == if op.Pause? then PAUSING else RESUMING
  {
  }

  /** The same pause or resume sent twice: the second request repeats the answer of the first, changes
      nothing and places no order. After an exception it is told FAILED if the bot is in ERROR, and to wait
      if it was stranded. */
  method TransitionTwice(service: BotService, user: nat, b: nat, text: string, op: Op, w: Weather, later: Weather)
    returns (first: Reply, second: Reply)
    requires service.Valid() && KeyId(user, TransitionBot(op, b), Client(text)) !in service.keys.rows
    modifies service.keys, service.orderService, service.Footprint(b)
    ensures first in {NotFound, Reply.Refused, Reply.Raised} || first.Done?
    ensures first == NotFound ==> second == Repeated(Replay(BotReceipt(None, Declined)))
    ensures first != NotFound ==> b in service.bots
    ensures first != NotFound ==>
              var bot := service.bots[b].AsBot();
              && (first.Done? ==>
                    && first.receipt.BotReceipt? && first.receipt.bot == Some(bot)
                    && second == Repeated(Replay(first.receipt)))
              && (first.Refused? ==> second == Repeated(Replay(BotReceipt(Some(bot), Declined))))
              && (first.Raised? ==>
                    if bot.status == ERROR then second == Repeated(Replay(BotReceipt(Some(bot), BotReply.Failed)))
                    else second == Repeated(InProgress) && bot.status == if op.Pause? then PAUSING else RESUMING)
    ensures |service.orderService.calls| <= |old(service.orderService.calls)| + 1
  {
    first := service.Transition(user, b, text, op, w);
    if old(service.CanTransition(user, b, op)) {
      EndIsStored(first, op, old(service.bots[b].AsDesk()), service.bots[b].AsDesk(), w,
                  service.PlacedAt(KeyId(user, Orders, Inner(op, b, text))),
                  service.keys.rows[KeyId(user, TransitionBot(op, b), Client(text))].response);
    }
    second := service.Transition(user, b, text, op, later);
  }
}
