/** Orders placed, canceled and closed under an idempotency key. */
module OrderService {
  import opened Common
  import opened Idempotency
  import opened Reconciliation
  import opened Requests
  import Validator = OrderValidator
  import Risk = RiskEngine

  /** What the account looks like to the risk gate, and whether it holds the symbol already. */
  datatype Account = Account(snapshot: Risk.RiskSnapshot, holdsSymbol: bool)

  /** Everything one submission hears from outside: switch, market, account, limits, exchange and clock. */
  datatype World = World(
    permitted: bool, price: Answer<real>, filters: Answer<Validator.SymbolFilters>, limits: Risk.RiskLimits,
    account: Answer<Account>, created: Answer<ExchangeOrder>, confirmed: Answer<ExchangeOrder>, now: int)

  datatype Submission = Submission(symbol: string, side: string, orderType: string, quantity: real, price: Option<real>)

  /** How a keyed call ends: the reservation answered, a response, or an exception. */
  datatype Reply =
    | Repeated(answer: Reservation<Receipt>)
    | Done(receipt: Receipt)
    | TradingDisabled
    | NotFound
    | Refused
    | BinanceError
    | Raised

  predicate Spelled(o: Submission) { NamesSide(o.side) && NamesType(o.orderType) }

  // ---- What the gates and the exchange make of a submission ----------------------------------------

  datatype Gate = Stops | Breaks | Passes

  function RequestOf(o: Submission): Validator.Request { Validator.Request(o.side, o.orderType, o.quantity, o.price) }

  function RiskRequestOf(o: Submission, notional: real, account: Account): Risk.RiskRequest {
    Risk.RiskRequest(o.symbol, SideNamed(o.side), notional, o.side == "BUY" && !account.holdsSymbol)
  }

  predicate WithinRisk(o: Submission, notional: real, w: World)
    requires w.account.Ok?
  {
    Risk.ValidateOrder(w.limits, RiskRequestOf(o, notional, w.account.value), w.account.value.snapshot).Approved?
  }

  function GateOf(o: Submission, w: World): Gate {
    if w.price.BinanceFailure? then Stops
    else if w.price.OtherFailure? then Breaks
    else if w.filters.BinanceFailure? then Stops
    else if w.filters.OtherFailure? then Breaks
    else
      var validation := Validator.Validate(RequestOf(o), w.price.value, w.filters.value);
      if validation.Refused? then Stops
      else if w.account.BinanceFailure? then Stops
      else if w.account.OtherFailure? then Breaks
      else if WithinRisk(o, validation.notional, w) then Passes else Stops
  }

  /** An exception leaves the pipeline and reaches the safety net. */
  predicate Trips(o: Submission, w: World) {
    || GateOf(o, w).Breaks?
    || (GateOf(o, w).Passes?
        && (|| w.created.OtherFailure?
            || (w.created.Ok? && !WellFormed(w.created.value))
            || (w.created.BinanceFailure? && w.confirmed.OtherFailure?)
            || (w.created.BinanceFailure? && w.confirmed.Ok? && !WellFormed(w.confirmed.value))))
  }

  /** What one submission does to its order row. */
  function TouchOf(o: Submission, w: World): Touch {
    match GateOf(o, w)
    case Stops => Refuse(w.now)
    case Breaks => GiveUp(w.now)
    case Passes =>
      if w.created.Ok? then Acknowledge(w.created.value, w.now)
      else if w.created.BinanceFailure? && w.confirmed.Ok? then Acknowledge(w.confirmed.value, w.now)
      else GiveUp(w.now)
  }

  function RowAfter(o: Submission, w: World): OrderRow { Touched(NEW_ROW, TouchOf(o, w)) }

  /** What a keyed submission stores under its key. The one that stores nothing names an unknown side or
      type: the enum conversion raises outside the safety net. */
  function AnswerTo(o: Submission, w: World): Option<Receipt> {
    if !w.permitted then Some(OrderReceipt(OrderStatus.REJECTED))
    else if !Spelled(o) then None
    else Some(OrderReceipt(RowAfter(o, w).status))
  }

  predicate Calls(o: Submission, w: World) { w.permitted && Spelled(o) && GateOf(o, w).Passes? }

  /** A finished submission leaves its row open only if the exchange said so, and never without a time otherwise. */
  lemma SubmittedRowIsSealed(o: Submission, w: World)
    ensures Sealed(RowAfter(o, w))
    ensures Trips(o, w) ==> RowAfter(o, w).status == OrderStatus.FAILED
    ensures RowAfter(o, w).status == FILLED ==> GateOf(o, w).Passes? && ReportsFilled(TouchOf(o, w))
  {
    SealKeptExactlyWithoutTear(NEW_ROW, TouchOf(o, w));
    TouchFacts(NEW_ROW, TouchOf(o, w));
  }

  // ---- When the gates open, and what becomes of the order ------------------------------------------

  /** The exchange's rules for the order as it is written. */
  ghost predicate ObeysRules(o: Submission, w: World)
    requires w.price.Ok? && w.filters.Ok?
  {
    Validator.MeetsRules(Validator.Request(o.side, o.orderType, o.quantity, o.price), w.price.value, w.filters.value)
  }

  /** The user's limits, after the order. Exposure and open positions bound a BUY and nothing else. */
  ghost predicate StaysWithinLimits(o: Submission, w: World)
    requires w.price.Ok? && w.account.Ok?
  {
    var worth := Validator.Notional(Validator.Request(o.side, o.orderType, o.quantity, o.price), w.price.value);
    var l, account, s := w.limits, w.account.value, w.account.value.snapshot;
    && l.allowedSymbols.Some? && o.symbol in l.allowedSymbols.value
    && s.totalValue > 0.0 && l.maxDailyLossPct.Some? && s.lossToday * 100.0 < l.maxDailyLossPct.value * s.totalValue
    && l.maxOrderNotional.Some? && worth <= l.maxOrderNotional.value
    && (o.side == "BUY" ==>
          && l.maxSymbolExposurePct.Some?
          && (s.symbolExposure + worth) * 100.0 <= l.maxSymbolExposurePct.value * s.totalValue
          && l.maxTotalExposurePct.Some?
          && (s.totalExposure + worth) * 100.0 <= l.maxTotalExposurePct.value * s.totalValue
          && l.maxOpenPositions.Some?
          && (!account.holdsSymbol ==> s.openPositions < l.maxOpenPositions.value))
  }

  /** The exchange is called exactly for orders within the rules and the limits; the gates raise
      exactly where something other than the exchange's own error is heard. */
  lemma GatePassesExactlyWithinRulesAndLimits(o: Submission, w: World)
    ensures GateOf(o, w).Passes?
       <==> w.price.Ok? && w.filters.Ok? && w.account.Ok? && ObeysRules(o, w) && StaysWithinLimits(o, w)
    ensures GateOf(o, w).Breaks?
       <==> || w.price.OtherFailure?
            || (w.price.Ok? && w.filters.OtherFailure?)
            || (w.price.Ok? && w.filters.Ok? && ObeysRules(o, w) && w.account.OtherFailure?)
  {
    if w.price.Ok? && w.filters.Ok? {
      Validator.ApprovedExactlyWhenRulesHold(RequestOf(o), w.price.value, w.filters.value);
      if w.account.Ok? {
        var worth := Validator.Notional(RequestOf(o), w.price.value);
        Risk.ApprovedExactlyWithinLimits(w.limits, RiskRequestOf(o, worth, w.account.value), w.account.value.snapshot);
      }
    }
  }

  /** A submission that heard this reply: a readable one is in the row, an unreadable one fails it. */
  ghost predicate Heard(row: OrderRow, reply: ExchangeOrder, now: int, raised: bool) {
    if WellFormed(reply) then !raised && ReflectsAndStamps(row, reply, NEW_ROW, now)
    else raised && row.status == OrderStatus.FAILED && row.terminalAt == Some(now)
  }

  ghost predicate NeverAccepted(row: OrderRow, status: OrderStatus, now: int) {
    row == OrderRow(status, None, 0.0, None, Some(now))
  }

  /** Each end of a submission: refused by a gate, failed, or what the exchange replied, the second time
      if the first call was refused. FAILED without an exception means that both calls were. */
  lemma SubmissionComesOutExactly(o: Submission, w: World, row: OrderRow)
    requires row == RowAfter(o, w)
    ensures match GateOf(o, w)
            case Stops => NeverAccepted(row, OrderStatus.REJECTED, w.now) && !Trips(o, w)
            case Breaks => NeverAccepted(row, OrderStatus.FAILED, w.now) && Trips(o, w)
            case Passes =>
              match (w.created, w.confirmed)
              case (Ok(reply), _) => Heard(row, reply, w.now, Trips(o, w))
              case (BinanceFailure, Ok(reply)) => Heard(row, reply, w.now, Trips(o, w))
              case (BinanceFailure, BinanceFailure) =>
                NeverAccepted(row, OrderStatus.FAILED, w.now) && !Trips(o, w)
              case _ => NeverAccepted(row, OrderStatus.FAILED, w.now) && Trips(o, w)
  {
    var t := TouchOf(o, w);
    if t.Acknowledge? {
      TouchedReflects(NEW_ROW, t, t.reply);
    }
  }

  // ---- The service -----------------------------------------------------------------------------------

  class OrderService {
    const keys: KeyTable<Payload, Receipt>
    // Order rows by client order id, which the database keeps unique.
    var orders: map<KeyId, Order>
    // Every create_order call so far.
    ghost var calls: seq<KeyId>

    constructor (keys: KeyTable<Payload, Receipt>)
      ensures this.keys == keys && orders == map[] && calls == []
    {
      this.keys := keys;
      orders := map[];
      calls := [];
    }

    /** Order rows exist only under claimed keys, each with its own object. */
    ghost predicate Valid()
      reads this, keys
    {
      && orders.Keys <= keys.rows.Keys
      && (forall a, b :: a in orders && b in orders && a != b ==> orders[a] != orders[b])
      && (forall id :: id in orders ==> orders[id].clientOrderId == id)
    }

    method CreateOrder(user: nat, o: Submission, key: Key, w: World) returns (r: Reply)
      requires Valid()
      modifies this, keys
      ensures Valid()
      ensures var id := KeyId(user, Orders, key);
              var payload := OrderPayload(o.symbol, o.side, o.orderType, o.quantity, o.price);
              if id in old(keys.rows) then
                && keys.rows == old(keys.rows) && keys.finalized == old(keys.finalized)
                && orders == old(orders) && calls == old(calls)
                && r == Repeated(Answered(keys.rows[id], payload))
              else Executed(r, id, payload, o, w, old(keys.rows), keys.rows, old(keys.finalized), keys.finalized,
                            old(orders), orders, old(calls), calls)
      ensures forall i :: i in old(orders) ==> unchanged(orders[i])
      ensures forall i :: i in orders && i !in old(orders) ==> fresh(orders[i])
    {
      var id := KeyId(user, Orders, key);
      var payload := OrderPayload(o.symbol, o.side, o.orderType, o.quantity, o.price);
      var reservation := keys.Reserve(id, payload);
      if !reservation.Fresh? {
        return Repeated(reservation);
      }
      r := CreateAndExecute(id, o, w);
    }

    /** What a call under a fresh key leaves behind: the key answered once with the status the order ended
        with, at most one new order row, which is the order that was asked for, and an exchange call
        exactly if it passed the gates. */
    ghost predicate Executed(r: Reply, id: KeyId, payload: Payload, o: Submission, w: World,
                             rows: map<KeyId, KeyRow>, rows': map<KeyId, KeyRow>,
                             finalized: seq<KeyId>, finalized': seq<KeyId>,
                             orders: map<KeyId, Order>, orders': map<KeyId, Order>,
                             calls: seq<KeyId>, calls': seq<KeyId>)
      reads orders'.Values
    {
      && rows' == rows[id := Row(payload, AnswerTo(o, w))]
      && calls' == (if Calls(o, w) then calls + [id] else calls)
      && finalized' == finalized + (if rows'[id].response.Some? then [id] else [])
      && (if !w.permitted then
            && rows'[id].response == Some(OrderReceipt(OrderStatus.REJECTED)) && r == TradingDisabled
            && orders' == orders && calls' == calls
          else if o.side !in {"BUY", "SELL"} || o.orderType !in {"MARKET", "LIMIT"} then
            rows'[id].response == None && r == Raised && orders' == orders && calls' == calls
          else
            && id in orders' && orders' == orders[id := orders'[id]] && orders'[id].bot == None
            && orders'[id].side == (if o.side == "BUY" then BUY else SELL) && orders'[id].quantity == o.quantity
            && orders'[id].Row() == RowAfter(o, w)
            && (if GateOf(o, w).Passes? then calls' == calls + [id] && orders'[id].submittedAt == Some(w.now)
                else calls' == calls && orders'[id].submittedAt == None)
            && rows'[id].response == Some(OrderReceipt(orders'[id].status))
            && r == (if Trips(o, w) then Raised else Done(OrderReceipt(orders'[id].status))))
    }

    method CreateAndExecute(id: KeyId, o: Submission, w: World) returns (r: Reply)
      requires Valid() && id in keys.rows && keys.rows[id].response == None && id !in orders
      modifies this, keys
      ensures Valid()
      ensures Executed(r, id, old(keys.rows[id].payload), o, w, old(keys.rows), keys.rows, old(keys.finalized),
                       keys.finalized, old(orders), orders, old(calls), calls)
      ensures forall i :: i in old(orders) ==> unchanged(orders[i])
      ensures forall i :: i in orders && i !in old(orders) ==> fresh(orders[i])
    {
      if !w.permitted {
        var found := keys.Finalize(id, OrderReceipt(OrderStatus.REJECTED));
        return TradingDisabled;
      }
      if !Spelled(o) {
        return Raised;
      }
      var order := new Order(id, SideNamed(o.side), o.quantity);
      orders := orders[id := order];
      var completed := ValidateAndExecute(order, o, w);
      if !completed {
        order.status := OrderStatus.FAILED;
        order.terminalAt := Some(w.now);
      }
      var found := keys.Finalize(id, OrderReceipt(order.status));
      return if completed then Done(OrderReceipt(order.status)) else Raised;
    }

    /** The gates in order, then the exchange. False stands for an exception. */
    method ValidateAndExecute(order: Order, o: Submission, w: World) returns (completed: bool)
      requires order.Row() == NEW_ROW && order.submittedAt == None && Spelled(o)
      modifies order, this`calls
      ensures completed <==> !Trips(o, w)
      ensures completed ==> order.Row() == RowAfter(o, w)
      ensures !completed ==> order.Row().(status := OrderStatus.FAILED, terminalAt := Some(w.now)) == RowAfter(o, w)
      ensures order.bot == old(order.bot)
      ensures order.submittedAt == if GateOf(o, w).Passes? then Some(w.now) else None
      ensures calls == if GateOf(o, w).Passes? then old(calls) + [order.clientOrderId] else old(calls)
    {
      if w.price.BinanceFailure? {
        RejectOrder(order, w.now);
        return true;
      }
      if w.price.OtherFailure? {
        return false;
      }
      if w.filters.BinanceFailure? {
        RejectOrder(order, w.now);
        return true;
      }
      if w.filters.OtherFailure? {
        return false;
      }
      var validation := Validator.Validate(RequestOf(o), w.price.value, w.filters.value);
      if validation.Refused? {
        RejectOrder(order, w.now);
        return true;
      }
      if w.account.BinanceFailure? {
        RejectOrder(order, w.now);
        return true;
      }
      if w.account.OtherFailure? {
        return false;
      }
      if !WithinRisk(o, validation.notional, w) {
        RejectOrder(order, w.now);
        return true;
      }
      completed := SubmitToBinance(order, w);
    }

    method RejectOrder(order: Order, now: int)
      modifies order
      ensures order.Row() == old(order.Row()).(status := OrderStatus.REJECTED, terminalAt := Some(now))
      ensures order.bot == old(order.bot) && order.submittedAt == old(order.submittedAt)
    {
      order.status := OrderStatus.REJECTED;
      order.terminalAt := Some(now);
    }

    /** What the exchange's answers make of a new row, exceptions aside. */
    static function Submitted(w: World): Touch {
      if w.created.Ok? then Acknowledge(w.created.value, w.now)
      else if w.created.BinanceFailure? && w.confirmed.Ok? then Acknowledge(w.confirmed.value, w.now)
      else GiveUp(w.now)
    }

    static predicate Hears(w: World) {
      || (w.created.Ok? && WellFormed(w.created.value))
      || (w.created.BinanceFailure?
          && (w.confirmed.BinanceFailure? || (w.confirmed.Ok? && WellFormed(w.confirmed.value))))
    }

    method SubmitToBinance(order: Order, w: World) returns (completed: bool)
      requires order.Row() == NEW_ROW
      modifies order, this`calls
      ensures calls == old(calls) + [order.clientOrderId] && order.bot == old(order.bot)
      ensures order.submittedAt == Some(w.now)
      ensures completed <==> Hears(w)
      ensures completed ==> order.Row() == Touched(NEW_ROW, Submitted(w))
      ensures !completed ==> order.Row().(status := OrderStatus.FAILED, terminalAt := Some(w.now))
                             == Touched(NEW_ROW, Submitted(w))
    {
      order.submittedAt := Some(w.now);
      calls := calls + [order.clientOrderId];
      if w.created.BinanceFailure? {
        completed := HandleAmbiguousCreateFailure(order, w);
        return;
      }
      if w.created.OtherFailure? {
        return false;
      }
      completed := Absorb(order, w.created.value, w.now);
    }

    /** The exchange may have accepted the order all the same: ask once, never submit again. */
    method HandleAmbiguousCreateFailure(order: Order, w: World) returns (completed: bool)
      requires order.Row() == NEW_ROW && w.created.BinanceFailure?
      modifies order
      ensures order.bot == old(order.bot) && order.submittedAt == old(order.submittedAt)
      ensures completed <==> Hears(w)
      ensures completed ==> order.Row() == Touched(NEW_ROW, Submitted(w))
      ensures !completed ==> order.Row().(status := OrderStatus.FAILED, terminalAt := Some(w.now))
                             == Touched(NEW_ROW, Submitted(w))
    {
      if w.confirmed.BinanceFailure? {
        order.status := OrderStatus.FAILED;
        order.terminalAt := Some(w.now);
        return true;
      }
      if w.confirmed.OtherFailure? {
        return false;
      }
      completed := Absorb(order, w.confirmed.value, w.now);
    }

    /** Reconciles a reply to a submission and stamps the row if it is final. */
    method Absorb(order: Order, reply: ExchangeOrder, now: int) returns (completed: bool)
      requires order.Row() == NEW_ROW
      modifies order
      ensures order.bot == old(order.bot) && order.submittedAt == old(order.submittedAt)
      ensures completed <==> WellFormed(reply)
      ensures completed ==> order.Row() == Touched(NEW_ROW, Acknowledge(reply, now))
      ensures !completed ==> order.Row().(status := OrderStatus.FAILED, terminalAt := Some(now))
                             == Touched(NEW_ROW, Acknowledge(reply, now))
    {
      var changed := ReconcileFromBinancePayload(order, reply);
      if changed.None? {
        return false;
      }
      if order.status in {FILLED, CANCELED, OrderStatus.REJECTED, EXPIRED} {
        order.terminalAt := Some(now);
      }
      return true;
    }

    // ---- Cancel --------------------------------------------------------------------------------------

    /** Once the exchange was asked: a readable reply is in the row, which is timed whatever it says, and
        the key stores its status; a refused call fails the request and leaves the row alone. */
    static ghost predicate CanceledAs(answer: Answer<ExchangeOrder>, now: int, r: Reply, id: KeyId, payload: Payload,
                                      row: OrderRow, row': OrderRow,
                                      rows: map<KeyId, KeyRow>, rows': map<KeyId, KeyRow>,
                                      finalized: seq<KeyId>, finalized': seq<KeyId>)
    {
      var read := answer.Ok? && WellFormed(answer.value);
      && (match answer
          case Ok(reply) => if read then Reflects(row', reply, row) && row'.terminalAt == Some(now)
                            else ReflectsInPart(row', reply, row)
          case _ => row' == row)
      && (if read || answer.BinanceFailure? then
            var status := if read then row'.status else OrderStatus.FAILED;
            && r == Done(OrderReceipt(status)) && finalized' == finalized + [id]
            && rows' == rows[id := Row(payload, Some(OrderReceipt(status)))]
          else r == Raised && finalized' == finalized && rows' == rows[id := Row(payload, None)])
    }

    /** Cancels one order. There is no safety net: an exception after the exchange was
        asked, or an unreadable reply, leaves the key unanswered. */
    method CancelOrder(user: nat, target: KeyId, text: string, permitted: bool, answer: Answer<ExchangeOrder>, now: int)
      returns (r: Reply)
      requires Valid()
      modifies keys, if target in orders then {orders[target]} else {}
      ensures Valid()
      ensures var id := KeyId(user, Endpoint.CancelOrder, Client(text));
              var payload := CancelPayload(target);
              var mine := target in orders && target.user == user;
              if id in old(keys.rows) then
                && keys.rows == old(keys.rows) && keys.finalized == old(keys.finalized)
                && (mine ==> orders[target].Row() == old(orders[target].Row()))
                && r == Repeated(Answered(keys.rows[id], payload))
              else if !permitted || !mine || old(orders[target].status) !in {NEW, PARTIALLY_FILLED} then
                && keys.finalized == old(keys.finalized) + [id]
                && keys.rows == old(keys.rows)[id := Row(payload, Some(OrderReceipt(OrderStatus.REJECTED)))]
                && (target in orders ==> orders[target].Row() == old(orders[target].Row()))
                && r == (if !permitted then TradingDisabled else if !mine then NotFound else Refused)
              else
                && orders[target].Row() == Touched(old(orders[target].Row()), Cancel(answer, now))
                && CanceledAs(answer, now, r, id, payload, old(orders[target].Row()), orders[target].Row(),
                              old(keys.rows), keys.rows, old(keys.finalized), keys.finalized)
      ensures target in orders ==> orders[target].bot == old(orders[target].bot)
    {
      var id := KeyId(user, Endpoint.CancelOrder, Client(text));
      var reservation := keys.Reserve(id, CancelPayload(target));
      if !reservation.Fresh? {
        return Repeated(reservation);
      }
      var found;
      if !permitted {
        found := keys.Finalize(id, OrderReceipt(OrderStatus.REJECTED));
        return TradingDisabled;
      }
      if target !in orders || target.user != user {
        found := keys.Finalize(id, OrderReceipt(OrderStatus.REJECTED));
        return NotFound;
      }
      var order := orders[target];
      if !IsCancelable(order.status) {
        found := keys.Finalize(id, OrderReceipt(OrderStatus.REJECTED));
        return Refused;
      }
      if answer.BinanceFailure? {
        found := keys.Finalize(id, OrderReceipt(OrderStatus.FAILED));
        return Done(OrderReceipt(OrderStatus.FAILED));
      }
      if answer.OtherFailure? {
        return Raised;
      }
      var changed := ReconcileFromBinancePayload(order, answer.value);
      if changed.None? {
        return Raised;
      }
      order.terminalAt := Some(now);
      found := keys.Finalize(id, OrderReceipt(order.status));
      return Done(OrderReceipt(order.status));
    }

    // ---- Close ---------------------------------------------------------------------------------------

    /** Sells the whole live position. It is read before the key is claimed, so a repeated
        request can end in NotFound, or clash with its own key when the quantity moved. */
    method ClosePosition(user: nat, symbol: string, text: string, position: Answer<Option<real>>, w: World)
      returns (r: Reply)
      requires Valid()
      modifies this, keys
      ensures Valid()
      ensures var id := KeyId(user, Endpoint.ClosePosition, Client(text));
              if !position.Ok? || position.value.None? || id in old(keys.rows) then
                && keys.rows == old(keys.rows) && keys.finalized == old(keys.finalized)
                && orders == old(orders) && calls == old(calls)
                && r == (if position.BinanceFailure? then BinanceError
                         else if position.OtherFailure? then Raised
                         else if position.value.None? then NotFound
                         else Repeated(Answered(keys.rows[id], ClosePayload(symbol, position.value.value))))
              else
                Executed(r, id, ClosePayload(symbol, position.value.value),
                         Submission(symbol, "SELL", "MARKET", position.value.value, None), w,
                         old(keys.rows), keys.rows, old(keys.finalized), keys.finalized,
                         old(orders), orders, old(calls), calls)
      ensures forall i :: i in old(orders) ==> unchanged(orders[i])
    {
      if position.BinanceFailure? {
        return BinanceError;
      }
      if position.OtherFailure? {
        return Raised;
      }
      if position.value.None? {
        return NotFound;
      }
      var quantity := position.value.value;
      var id := KeyId(user, Endpoint.ClosePosition, Client(text));
      var reservation := keys.Reserve(id, ClosePayload(symbol, quantity));
      if !reservation.Fresh? {
        return Repeated(reservation);
      }
      r := CreateAndExecute(id, Submission(symbol, "SELL", "MARKET", quantity, None), w);
    }
  }
  // ---- What a client sees who asks twice -------------------------------------------------------------

  /** However the first request ended, the same order sent again under its key returns how it ended, any
      other order is turned away, and the exchange hears nothing of it. Only an order with an unknown
      side or type stays in progress for good. */
  method PlaceTwice(service: OrderService, user: nat, key: Key, o: Submission, w: World, again: Submission,
                    later: World)
    returns (first: Reply, second: Reply)
    requires service.Valid() && KeyId(user, Orders, key) !in service.keys.rows
    modifies service, service.keys
    ensures !first.Repeated? && second.Repeated?
    ensures var known := o.side in {"BUY", "SELL"} && o.orderType in {"MARKET", "LIMIT"};
            && (w.permitted && !known ==> second == Repeated(InProgress))
            && (first.Done? && again == o ==> second == Repeated(Replay(first.receipt)))
            && (first.TradingDisabled? && again == o ==> second == Repeated(Replay(OrderReceipt(OrderStatus.REJECTED))))
            && (first.Raised? && known && again == o ==> second == Repeated(Replay(OrderReceipt(OrderStatus.FAILED))))
            && ((!w.permitted || known) && again != o ==> second == Repeated(Conflict))
    ensures service.calls in {old(service.calls), old(service.calls) + [KeyId(user, Orders, key)]}
  {
    SubmittedRowIsSealed(o, w);
    first := service.CreateOrder(user, o, key, w);
    second := service.CreateOrder(user, again, key, later);
  }
}
