/** Simulated bot orders: the same gates as real ones, then a virtual fill. */
module SimulationOrderService {
  import opened Common
  import opened Idempotency
  import opened SimulationLedger
  import opened BotMachine
  import opened Requests
  import opened OrderService
  import PortfolioStats
  import Validator = OrderValidator
  import Risk = RiskEngine

  class SimulationAccount {
    const initialCapital: real
    var cash: real
    var orders: seq<SimOrder>

    constructor (capital: real)
      ensures AsLedger() == Ledger(capital, capital, [])
    {
      initialCapital := capital;
      cash := capital;
      orders := [];
    }

    function AsLedger(): Ledger
      reads this
    {
      Ledger(initialCapital, cash, orders)
    }
  }

  /** A bot row with its position and its virtual account. */
  class BotRecord {
    const id: nat
    const user: nat
    const symbol: string
    const account: SimulationAccount
    var mode: Mode
    var status: Status
    var current: real
    var target: real

    /** Every bot starts simulated, paused and flat. */
    constructor (id: nat, user: nat, symbol: string, target: real, account: SimulationAccount)
      ensures this.id == id && this.account == account
      ensures AsBot() == Bot(user, symbol, SIMULATION, PAUSED, 0.0, target)
    {
      this.id := id;
      this.user := user;
      this.symbol := symbol;
      this.account := account;
      this.target := target;
      mode := SIMULATION;
      status := PAUSED;
      current := 0.0;
    }

    function AsBot(): Bot
      reads this
    {
      Bot(user, symbol, mode, status, current, target)
    }

    function AsDesk(): Desk
      reads this, account
    {
      Desk(AsBot(), account.AsLedger())
    }
  }

  function StatusOf(order: SimOrder): OrderStatus {
    if order.FilledOrder? then FILLED
    else if order.status == Miss.Rejected then OrderStatus.REJECTED else OrderStatus.FAILED
  }

  /** What an attempt stores under its key; one that raised stores nothing. */
  function ReceiptOf(a: Attempt): Option<Receipt> {
    match a
    case TradingDisabled => Some(OrderReceipt(OrderStatus.REJECTED))
    case Raised => None
    case Booked(order, _) => Some(OrderReceipt(StatusOf(order)))
  }

  /** What the gates decide about one attempt. */
  datatype Verdict = Breaks | Misses(status: Miss) | Fills(price: real)

  function Concluded(ledger: Ledger, side: Side, quantity: real, m: Market, v: Verdict): Attempt {
    match v
    case Breaks => Attempt.Raised
    case Misses(status) => Missed(ledger, side, quantity, status, m)
    case Fills(price) =>
      var order := FilledAt(side, quantity, price, m);
      Booked(order, CashAfter(ledger.cash, order))
  }

  /** On the account's own rows: an attempt the switch or an exception stopped leaves none and no change; any
      other adds one row for what was asked, filled if and only if it `may` be, REJECTED if it may not, and
      FAILED without a price or filters. Cash moves only with a fill, and the key says what the row says. */
  ghost predicate BookedAs(before: Ledger, after: Ledger, may: bool, side: Side, quantity: real, m: Market,
                           response: Option<Receipt>, r: Reply)
  {
    if !m.permitted then
      after == before && response == Some(OrderReceipt(OrderStatus.REJECTED)) && r == Reply.TradingDisabled
    else if m.price.OtherFailure? || (m.price.Ok? && m.filters.OtherFailure?) then
      after == before && response == None && r == Reply.Raised
    else
      && |after.orders| == |before.orders| + 1 && after.orders == before.orders + [after.orders[|before.orders|]]
      && after.initialCapital == before.initialCapital
      && var row := after.orders[|before.orders|];
      && row.side == side && row.quantity == quantity && row.at == m.now
      && r == Done(OrderReceipt(if row.FilledOrder? then FILLED
                                else if row.status.Rejected? then OrderStatus.REJECTED else OrderStatus.FAILED))
      && response == Some(r.receipt)
      && (row.FilledOrder? <==> may)
      && (row.FilledOrder? ==> m.price.Ok? && row == FilledAt(side, quantity, m.price.value, m))
      && after.cash == CashAfter(before.cash, row)
      && (row.UnfilledOrder? ==>
            after.cash == before.cash && (row.status.Failed? <==> m.price.BinanceFailure? || m.filters.BinanceFailure?))
  }

  function ReplyTo(a: Attempt): Reply {
    match a
    case TradingDisabled => Reply.TradingDisabled
    case Raised => Reply.Raised
    case Booked(order, _) => Done(OrderReceipt(StatusOf(order)))
  }

  lemma AttemptIsBookedAs(before: Ledger, symbol: string, holding: real, side: Side, quantity: real, m: Market,
                          a: Attempt)
    requires a == SimulationLedger.PlaceBotOrder(before, symbol, holding, side, quantity, m)
    ensures var may := m.price.Ok? && m.filters.Ok? && MayFill(before, symbol, holding, side, quantity, m);
            BookedAs(before, Record(before, a), may, side, quantity, m, ReceiptOf(a), ReplyTo(a))
  {
    AttemptComesOutExactly(before, symbol, holding, side, quantity, m, a);
    if a.Booked? && a.order.FilledOrder? {
      FillPassedGates(before, symbol, holding, side, quantity, m);
    }
  }

  class SimulationOrderService {
    const keys: KeyTable<Payload, Receipt>

    constructor (keys: KeyTable<Payload, Receipt>)
      ensures this.keys == keys
    {
      this.keys := keys;
    }

    /** One attempt under a fresh key is booked exactly as the ledger's pipeline says and
        answers its key, unless an exception escapes: there is no safety net here. */
    method PlaceBotOrder(bot: BotRecord, side: Side, quantity: real, key: Key, m: Market) returns (r: Reply)
      modifies keys, bot.account
      ensures var id := KeyId(bot.user, SimulationOrders(bot.id), key);
              var payload := SimulationPayload(bot.id, SideText(side), quantity);
              var a := SimulationLedger.PlaceBotOrder(old(bot.account.AsLedger()), bot.symbol, bot.current, side,
                                                      quantity, m);
              if id in old(keys.rows) then
                && keys.rows == old(keys.rows) && keys.finalized == old(keys.finalized)
                && bot.account.AsLedger() == old(bot.account.AsLedger())
                && r == Repeated(Answered(keys.rows[id], payload))
              else
                && bot.account.AsLedger() == Record(old(bot.account.AsLedger()), a)
                && keys.rows == old(keys.rows)[id := Row(payload, ReceiptOf(a))]
                && keys.finalized == old(keys.finalized) + (if a.Raised? then [] else [id])
                && r == ReplyTo(a)
      ensures var id := KeyId(bot.user, SimulationOrders(bot.id), key);
              var may := m.price.Ok? && m.filters.Ok?
                         && MayFill(old(bot.account.AsLedger()), bot.symbol, bot.current, side, quantity, m);
              id !in old(keys.rows) ==>
                && id in keys.rows
                && BookedAs(old(bot.account.AsLedger()), bot.account.AsLedger(), may, side, quantity, m,
                            keys.rows[id].response, r)
    {
      ghost var ledger := bot.account.AsLedger();
      AttemptIsBookedAs(ledger, bot.symbol, bot.current, side, quantity, m,
                        SimulationLedger.PlaceBotOrder(ledger, bot.symbol, bot.current, side, quantity, m));
      var id := KeyId(bot.user, SimulationOrders(bot.id), key);
      var reservation := keys.Reserve(id, SimulationPayload(bot.id, SideText(side), quantity));
      if !reservation.Fresh? {
        return Repeated(reservation);
      }
      if !m.permitted {
        var found := keys.Finalize(id, OrderReceipt(OrderStatus.REJECTED));
        return Reply.TradingDisabled;
      }
      var verdict := Judge(bot, side, quantity, m);
      match verdict {
        case Breaks => return Reply.Raised;
        case Misses(status) => r := Terminal(id, bot, side, quantity, status, m);
        case Fills(price) => r := Fill(id, bot, side, quantity, price, m);
      }
    }

    /** The gates in order: price, filters, validation, risk and, for a BUY, the cash guard. */
    method Judge(bot: BotRecord, side: Side, quantity: real, m: Market) returns (v: Verdict)
      requires m.permitted
      ensures var ledger := bot.account.AsLedger();
              SimulationLedger.PlaceBotOrder(ledger, bot.symbol, bot.current, side, quantity, m)
                  == Concluded(ledger, side, quantity, m, v)
    {
      if m.price.BinanceFailure? {
        return Misses(Miss.Failed);
      }
      if m.price.OtherFailure? {
        return Verdict.Breaks;
      }
      if m.filters.BinanceFailure? {
        return Misses(Miss.Failed);
      }
      if m.filters.OtherFailure? {
        return Verdict.Breaks;
      }
      var validation := Validator.Validate(MarketRequest(side, quantity), m.price.value, m.filters.value);
      if validation.Refused? {
        return Misses(Miss.Rejected);
      }
      LimitsDecide(bot.account.AsLedger(), bot.symbol, bot.current, side, m.price.value, validation.notional, m);
      var approved := EvaluateRisk(bot, side, m.price.value, validation.notional, m);
      if !approved {
        return Misses(Miss.Rejected);
      }
      if side == BUY {
        var projectedCost := validation.notional * (1.0 + m.feePct / 100.0 + m.slippagePct / 100.0);
        if projectedCost > bot.account.cash {
          return Misses(Miss.Rejected);
        }
      }
      return Fills(m.price.value);
    }

    method EvaluateRisk(bot: BotRecord, side: Side, price: real, notional: real, m: Market) returns (approved: bool)
      ensures approved <==> RiskAllows(m.limits, bot.symbol, side, notional, bot.account.cash, bot.current, price,
                                       ClosedSince(bot.account.orders, m.todayStart))
    {
      var exposure := bot.current * price;
      var totalValue := bot.account.cash + exposure;
      var realizedToday := PortfolioStats.ComputeRealizedPnlToday(bot.account.orders, m.todayStart);
      var lossToday := if -realizedToday > 0.0 then -realizedToday else 0.0;
      var snapshot :=
        Risk.RiskSnapshot(totalValue, exposure, exposure, if bot.current > 0.0 then 1 else 0, lossToday);
      var request := Risk.RiskRequest(bot.symbol, side, notional, side == BUY && bot.current == 0.0);
      Risk.ApprovedExactlyWithinLimits(m.limits, request, snapshot);
      LimitsAgree(m.limits, bot.symbol, side, notional, bot.account.cash, bot.current, price, realizedToday, snapshot);
      return Risk.ValidateOrder(m.limits, request, snapshot).Approved?;
    }

    method Fill(id: KeyId, bot: BotRecord, side: Side, quantity: real, marketPrice: real, m: Market) returns (r: Reply)
      requires id in keys.rows
      modifies keys, bot.account
      ensures var order := FilledAt(side, quantity, marketPrice, m);
              && bot.account.AsLedger()
                 == Record(old(bot.account.AsLedger()), Booked(order, CashAfter(old(bot.account.cash), order)))
              && r == Done(OrderReceipt(FILLED)) && keys.finalized == old(keys.finalized) + [id]
              && keys.rows == old(keys.rows)[id := old(keys.rows)[id].(response := Some(OrderReceipt(FILLED)))]
    {
      var fillPrice := if side == BUY then marketPrice * (1.0 + m.slippagePct / 100.0)
                       else marketPrice * (1.0 - m.slippagePct / 100.0);
      var notional := fillPrice * quantity;
      var fee := notional * m.feePct / 100.0;
      var slippage := Abs(fillPrice - marketPrice) * quantity;
      var order := FilledOrder(side, quantity, fillPrice, fee, slippage, m.now);
      assert order == FilledAt(side, quantity, marketPrice, m);
      bot.account.orders := bot.account.orders + [order];
      if side == BUY {
        bot.account.cash := bot.account.cash - (notional + fee);
      } else {
        bot.account.cash := bot.account.cash + (notional - fee);
      }
      var found := keys.Finalize(id, OrderReceipt(FILLED));
      return Done(OrderReceipt(FILLED));
    }

    method Terminal(id: KeyId, bot: BotRecord, side: Side, quantity: real, status: Miss, m: Market) returns (r: Reply)
      requires id in keys.rows
      modifies keys, bot.account
      ensures var order := UnfilledOrder(side, quantity, status, m.now);
              && bot.account.AsLedger() == Record(old(bot.account.AsLedger()), Booked(order, old(bot.account.cash)))
              && r == Done(OrderReceipt(StatusOf(order))) && keys.finalized == old(keys.finalized) + [id]
              && keys.rows == old(keys.rows)[id := old(keys.rows)[id].(response := Some(OrderReceipt(StatusOf(order))))]
    {
      var order := UnfilledOrder(side, quantity, status, m.now);
      bot.account.orders := bot.account.orders + [order];
      var found := keys.Finalize(id, OrderReceipt(StatusOf(order)));
      return Done(OrderReceipt(StatusOf(order)));
    }
  }
}
