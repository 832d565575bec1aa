/** The virtual ledger: how one simulated order is gated, filled and booked. */
module SimulationLedger {
  import opened Common
  import opened Alternation
  import opened RoundTrips
  import opened Sorting
  import Validator = OrderValidator
  import Risk = RiskEngine

  datatype Miss = Rejected | Failed

  /** One row per attempt. A fill is always complete; other rows carry no fill fields. */
  datatype SimOrder =
    | FilledOrder(side: Side, quantity: real, fillPrice: real, fee: real, slippage: real, at: int)
    | UnfilledOrder(side: Side, quantity: real, status: Miss, at: int)

  datatype Ledger = Ledger(initialCapital: real, cash: real, orders: seq<SimOrder>)

  /** Everything one attempt reads from outside: switches, market, limits, rates and clock. */
  datatype Market = Market(
    permitted: bool, price: Answer<real>, filters: Answer<Validator.SymbolFilters>, limits: Risk.RiskLimits,
    feePct: real, slippagePct: real, now: int, todayStart: int)

  datatype Attempt =
    | TradingDisabled
    | Raised
    | Booked(order: SimOrder, cash: real)

  // ---- Arithmetic of one fill ---------------------------------------------------------

  function FillPrice(side: Side, marketPrice: real, slippagePct: real): real {
    if side == BUY then marketPrice * (1.0 + slippagePct / 100.0) else marketPrice * (1.0 - slippagePct / 100.0)
  }

  function Abs(x: real): real { if x < 0.0 then -x else x }

  function FilledAt(side: Side, quantity: real, marketPrice: real, m: Market): SimOrder {
    var price := FillPrice(side, marketPrice, m.slippagePct);
    FilledOrder(side, quantity, price, price * quantity * m.feePct / 100.0, Abs(price - marketPrice) * quantity, m.now)
  }

  function CashAfter(cash: real, order: SimOrder): real {
    if order.UnfilledOrder? then cash
    else if order.side == BUY then cash - (order.fillPrice * order.quantity + order.fee)
    else cash + (order.fillPrice * order.quantity - order.fee)
  }

  function ProjectedCost(notional: real, feePct: real, slippagePct: real): real {
    notional * (1.0 + feePct / 100.0 + slippagePct / 100.0)
  }

  function TotalValue(cash: real, quantity: real, price: real): real { cash + quantity * price }

  // ---- Order rows as fills ---------------------------------------------------------------

  function AsFill(order: SimOrder): Fill
    requires order.FilledOrder?
  {
    Fill(order.side, order.fillPrice, order.quantity, order.fee, order.at)
  }

  function Fills(orders: seq<SimOrder>): seq<Fill> {
    if orders == [] then []
    else
      var last := orders[|orders| - 1];
      Fills(orders[..|orders| - 1]) + if last.FilledOrder? then [AsFill(last)] else []
  }

  ghost function FilledIndices(orders: seq<SimOrder>): set<int> {
    set i | 0 <= i < |orders| && orders[i].FilledOrder?
  }

  /** One fill for each FILLED row and no other, in the rows' order: row `i` comes behind the fills of the
      rows before it, with its own side, fill price, quantity, fee and time. */
  lemma {:induction false} FillsAreTheFilledRows(orders: seq<SimOrder>, i: nat)
    ensures |Fills(orders)| == |FilledIndices(orders)|
    ensures i in FilledIndices(orders) ==>
              && |Fills(orders[..i])| < |Fills(orders)|
              && Fills(orders)[|Fills(orders[..i])|]
                 == Fill(orders[i].side, orders[i].fillPrice, orders[i].quantity, orders[i].fee, orders[i].at)
  {
    if orders != [] {
      var n := |orders| - 1;
      var front := orders[..n];
      FillsAreTheFilledRows(front, i);
      assert FilledIndices(orders) == FilledIndices(front) + if n in FilledIndices(orders) then {n} else {};
      if i < n {
        assert front[..i] == orders[..i];
      }
    }
  }

  /** Today's realized P&L as the risk gate sees it. */
  function RealizedToday(orders: seq<SimOrder>, todayStart: int): real {
    Pair(ByTime(Fills(orders)), Since(todayStart)).realized
  }

  // ---- The pipeline ------------------------------------------------------------------------

  function Snapshot(ledger: Ledger, holding: real, price: real, todayStart: int): Risk.RiskSnapshot {
    var loss := -RealizedToday(ledger.orders, todayStart);
    Risk.RiskSnapshot(
      TotalValue(ledger.cash, holding, price), holding * price, holding * price,
      if holding > 0.0 then 1 else 0, if loss > 0.0 then loss else 0.0)
  }

  function RiskDecision(ledger: Ledger, symbol: string, holding: real, side: Side, price: real, notional: real,
                        m: Market): Risk.RiskDecision {
    Risk.ValidateOrder(m.limits, Risk.RiskRequest(symbol, side, notional, side == BUY && holding == 0.0),
                       Snapshot(ledger, holding, price, m.todayStart))
  }

  function SideText(side: Side): string { if side == BUY then "BUY" else "SELL" }

  function MarketRequest(side: Side, quantity: real): Validator.Request {
    Validator.Request(SideText(side), "MARKET", quantity, None)
  }

  function Missed(ledger: Ledger, side: Side, quantity: real, status: Miss, m: Market): Attempt {
    Booked(UnfilledOrder(side, quantity, status, m.now), ledger.cash)
  }

  /** The whole attempt: switch, price, filters, validation, risk, cash, fill. */
  function PlaceBotOrder(ledger: Ledger, symbol: string, holding: real, side: Side, quantity: real,
                         m: Market): Attempt {
    if !m.permitted then TradingDisabled
    else if m.price.BinanceFailure? then Missed(ledger, side, quantity, Failed, m)
    else if m.price.OtherFailure? then Raised
    else if m.filters.BinanceFailure? then Missed(ledger, side, quantity, Failed, m)
    else if m.filters.OtherFailure? then Raised
    else
      var price := m.price.value;
      var validation := Validator.Validate(MarketRequest(side, quantity), price, m.filters.value);
      if validation.Refused? then Missed(ledger, side, quantity, Rejected, m)
      else if RiskDecision(ledger, symbol, holding, side, price, validation.notional, m).Refused? then
        Missed(ledger, side, quantity, Rejected, m)
      else if side == BUY && ProjectedCost(validation.notional, m.feePct, m.slippagePct) > ledger.cash then
        Missed(ledger, side, quantity, Rejected, m)
      else
        var order := FilledAt(side, quantity, price, m);
        Booked(order, CashAfter(ledger.cash, order))
  }

  function Record(ledger: Ledger, attempt: Attempt): Ledger {
    if attempt.Booked? then ledger.(cash := attempt.cash, orders := ledger.orders + [attempt.order]) else ledger
  }

  // ---- What lets an attempt fill, read off the account and its order rows --------------------------

  /** What the trips made that were closed since the start of the day. */
  ghost function ClosedSince(orders: seq<SimOrder>, start: int): real {
    AdjacentPnl(ByTime(Fills(orders)), |Fills(orders)|, Since(start))
  }

  /** The user's limits: the day's loss against the account's value, and for a BUY the exposure and
      the open position it would leave. A loss limit of zero stops everything. */
  ghost predicate RiskAllows(l: Risk.RiskLimits, symbol: string, side: Side, notional: real, cash: real,
                                    holding: real, price: real, madeToday: real)
  {
    var value := cash + holding * price;
    && l.allowedSymbols.Some? && symbol in l.allowedSymbols.value
    && value > 0.0 && l.maxDailyLossPct.Some? && 0.0 < l.maxDailyLossPct.value
    && -madeToday * 100.0 < l.maxDailyLossPct.value * value
    && l.maxOrderNotional.Some? && notional <= l.maxOrderNotional.value
    && (side == BUY ==>
          && l.maxSymbolExposurePct.Some?
          && (holding * price + notional) * 100.0 <= l.maxSymbolExposurePct.value * value
          && l.maxTotalExposurePct.Some?
          && (holding * price + notional) * 100.0 <= l.maxTotalExposurePct.value * value
          && l.maxOpenPositions.Some? && (holding == 0.0 ==> 0 < l.maxOpenPositions.value))
  }

  /** The exchange's rules for a MARKET order, the user's limits and, for a BUY, the cash guard. */
  ghost predicate MayFill(ledger: Ledger, symbol: string, holding: real, side: Side, quantity: real, m: Market)
    requires m.price.Ok? && m.filters.Ok?
  {
    var price, notional := m.price.value, quantity * m.price.value;
    && Validator.MeetsRules(Validator.Request(if side == BUY then "BUY" else "SELL", "MARKET", quantity, None), price,
                            m.filters.value)
    && RiskAllows(m.limits, symbol, side, notional, ledger.cash, holding, price,
                         ClosedSince(ledger.orders, m.todayStart))
    && (side == BUY ==> notional * (1.0 + m.feePct / 100.0 + m.slippagePct / 100.0) <= ledger.cash)
  }

  /** The loss the gate sees is the day's P&L where that is negative, and zero otherwise. */
  lemma LossBound(made: real, loss: real, limit: real, value: real)
    requires value > 0.0 && loss == (if -made > 0.0 then -made else 0.0)
    ensures loss * 100.0 < limit * value <==> 0.0 < limit && -made * 100.0 < limit * value
  {
    if limit > 0.0 {
      assert limit * value > 0.0;
    } else {
      Risk.ScaleMonotone(limit, 0.0, value);
    }
  }

  lemma LimitsAgree(l: Risk.RiskLimits, symbol: string, side: Side, notional: real, cash: real, holding: real,
                    price: real, made: real, s: Risk.RiskSnapshot)
    requires s.totalValue == cash + holding * price && s.symbolExposure == s.totalExposure == holding * price
    requires s.openPositions == (if holding > 0.0 then 1 else 0)
    requires s.lossToday == (if -made > 0.0 then -made else 0.0)
    ensures Risk.WithinLimits(l, Risk.RiskRequest(symbol, side, notional, side == BUY && holding == 0.0), s)
       <==> RiskAllows(l, symbol, side, notional, cash, holding, price, made)
  {
    if s.totalValue > 0.0 && l.maxDailyLossPct.Some? {
      LossBound(made, s.lossToday, l.maxDailyLossPct.value, s.totalValue);
    }
  }

  lemma LimitsDecide(ledger: Ledger, symbol: string, holding: real, side: Side, price: real, notional: real, m: Market)
    ensures RiskDecision(ledger, symbol, holding, side, price, notional, m).Approved?
       <==> RiskAllows(m.limits, symbol, side, notional, ledger.cash, holding, price,
                              ClosedSince(ledger.orders, m.todayStart))
  {
    var s := Snapshot(ledger, holding, price, m.todayStart);
    WalkPairsNeighbours(ByTime(Fills(ledger.orders)), Since(m.todayStart));
    var request := Risk.RiskRequest(symbol, side, notional, side == BUY && holding == 0.0);
    Risk.ApprovedExactlyWithinLimits(m.limits, request, s);
    LimitsAgree(m.limits, symbol, side, notional, ledger.cash, holding, price,
                ClosedSince(ledger.orders, m.todayStart), s);
  }

  lemma GatesAgree(ledger: Ledger, symbol: string, holding: real, side: Side, quantity: real, m: Market, price: real,
                   notional: real)
    requires m.price == Ok(price) && m.filters.Ok? && notional == quantity * price
    ensures MayFill(ledger, symbol, holding, side, quantity, m)
       <==> && Validator.Validate(MarketRequest(side, quantity), price, m.filters.value) == Validator.Approved(notional)
            && RiskDecision(ledger, symbol, holding, side, price, notional, m).Approved?
            && (side == BUY ==> ProjectedCost(notional, m.feePct, m.slippagePct) <= ledger.cash)
    ensures var v := Validator.Validate(MarketRequest(side, quantity), price, m.filters.value);
            v.Approved? ==> v.notional == notional
  {
    Validator.ApprovedExactlyWhenRulesHold(MarketRequest(side, quantity), price, m.filters.value);
    LimitsDecide(ledger, symbol, holding, side, price, notional, m);
  }

  /** Which of its five ends an attempt meets, each characterised from the inputs alone. */
  lemma AttemptComesOutExactly(ledger: Ledger, symbol: string, holding: real, side: Side, quantity: real, m: Market,
                               a: Attempt)
    requires a == PlaceBotOrder(ledger, symbol, holding, side, quantity, m)
    ensures var priced := m.permitted && m.price.Ok?;
            && (a.TradingDisabled? <==> !m.permitted)
            && (a.Raised? <==> (m.permitted && m.price.OtherFailure?) || (priced && m.filters.OtherFailure?))
            && (a == Booked(UnfilledOrder(side, quantity, Failed, m.now), ledger.cash)
                <==> (m.permitted && m.price.BinanceFailure?) || (priced && m.filters.BinanceFailure?))
            && (a == Booked(UnfilledOrder(side, quantity, Rejected, m.now), ledger.cash)
                <==> priced && m.filters.Ok? && !MayFill(ledger, symbol, holding, side, quantity, m))
            && (a.Booked? && a.order.FilledOrder?
                <==> priced && m.filters.Ok? && MayFill(ledger, symbol, holding, side, quantity, m))
  {
    if m.permitted && m.price.Ok? && m.filters.Ok? {
      PricedAttempt(ledger, symbol, holding, side, quantity, m, a);
    }
  }

  lemma PricedAttempt(ledger: Ledger, symbol: string, holding: real, side: Side, quantity: real, m: Market, a: Attempt)
    requires m.permitted && m.price.Ok? && m.filters.Ok?
    requires a == PlaceBotOrder(ledger, symbol, holding, side, quantity, m)
    ensures if MayFill(ledger, symbol, holding, side, quantity, m) then
              a.Booked? && a.order == FilledAt(side, quantity, m.price.value, m)
            else a == Missed(ledger, side, quantity, Rejected, m)
  {
    var price, notional := m.price.value, quantity * m.price.value;
    var v := Validator.Validate(MarketRequest(side, quantity), price, m.filters.value);
    GatesAgree(ledger, symbol, holding, side, quantity, m, price, notional);
    GatesDecide(ledger, symbol, holding, side, quantity, m, a, v,
                v.Approved? && RiskDecision(ledger, symbol, holding, side, price, v.notional, m).Approved?,
                v.Approved? && (side == BUY ==> ProjectedCost(v.notional, m.feePct, m.slippagePct) <= ledger.cash));
  }

  lemma GatesDecide(ledger: Ledger, symbol: string, holding: real, side: Side, quantity: real, m: Market, a: Attempt,
                    v: Validator.Validation, approved: bool, affordable: bool)
    requires m.permitted && m.price.Ok? && m.filters.Ok?
    requires a == PlaceBotOrder(ledger, symbol, holding, side, quantity, m)
    requires v == Validator.Validate(MarketRequest(side, quantity), m.price.value, m.filters.value)
    requires approved
        <==> v.Approved? && RiskDecision(ledger, symbol, holding, side, m.price.value, v.notional, m).Approved?
    requires affordable
        <==> v.Approved? && (side == BUY ==> ProjectedCost(v.notional, m.feePct, m.slippagePct) <= ledger.cash)
    ensures if v.Approved? && approved && affordable then
              a.Booked? && a.order == FilledAt(side, quantity, m.price.value, m)
            else a == Missed(ledger, side, quantity, Rejected, m)
  {
  }

  /** A fill has a price, a positive quantity and, for a BUY, passed the cash guard. */
  lemma FillPassedGates(ledger: Ledger, symbol: string, holding: real, side: Side, quantity: real, m: Market)
    requires var a := PlaceBotOrder(ledger, symbol, holding, side, quantity, m); a.Booked? && a.order.FilledOrder?
    ensures m.permitted && m.price.Ok? && m.filters.Ok? && quantity > 0.0
    ensures PlaceBotOrder(ledger, symbol, holding, side, quantity, m).order
              == FilledAt(side, quantity, m.price.value, m)
    ensures RiskDecision(ledger, symbol, holding, side, m.price.value, quantity * m.price.value, m).Approved?
    ensures side == BUY ==> ProjectedCost(quantity * m.price.value, m.feePct, m.slippagePct) <= ledger.cash
  {
    var a := PlaceBotOrder(ledger, symbol, holding, side, quantity, m);
    AttemptComesOutExactly(ledger, symbol, holding, side, quantity, m, a);
    PricedAttempt(ledger, symbol, holding, side, quantity, m, a);
    GatesAgree(ledger, symbol, holding, side, quantity, m, m.price.value, quantity * m.price.value);
  }

  lemma LossForbidsFill(ledger: Ledger, symbol: string, holding: real, side: Side, quantity: real, m: Market)
    requires m.price.Ok? && m.filters.Ok? && m.limits.maxDailyLossPct.Some?
    requires -ClosedSince(ledger.orders, m.todayStart) * 100.0
               >= m.limits.maxDailyLossPct.value * (ledger.cash + holding * m.price.value)
    ensures !MayFill(ledger, symbol, holding, side, quantity, m)
  {
  }

  /** The day's limit on the order rows themselves: while the trips closed today have lost that share of
      the account (`over`), no order fills, and one that gets as far as the gate is booked REJECTED. */
  lemma DailyLossStopsTrading(ledger: Ledger, symbol: string, holding: real, side: Side, quantity: real, m: Market,
                              a: Attempt, over: bool)
    requires a == PlaceBotOrder(ledger, symbol, holding, side, quantity, m)
    requires m.price.Ok? && m.limits.maxDailyLossPct.Some?
    requires over <==> -ClosedSince(ledger.orders, m.todayStart) * 100.0
                         >= m.limits.maxDailyLossPct.value * (ledger.cash + holding * m.price.value)
    ensures a.Booked? && a.order.FilledOrder? ==> !over
    ensures over && m.permitted && m.filters.Ok? ==>
              a == Booked(UnfilledOrder(side, quantity, Rejected, m.now), ledger.cash)
  {
    AttemptComesOutExactly(ledger, symbol, holding, side, quantity, m, a);
    if over && m.filters.Ok? {
      LossForbidsFill(ledger, symbol, holding, side, quantity, m);
    }
  }

  // ---- Equity ----------------------------------------------------------------------------------

  function HoldingAfter(holding: real, order: SimOrder): real {
    if order.UnfilledOrder? then holding
    else if order.side == BUY then holding + order.quantity else holding - order.quantity
  }

  function Friction(order: SimOrder): real {
    if order.FilledOrder? then order.fee + order.slippage else 0.0
  }

  function Frictions(orders: seq<SimOrder>): real {
    if orders == [] then 0.0 else Frictions(orders[..|orders| - 1]) + Friction(orders[|orders| - 1])
  }

  /** Valued at the market price it was filled against, a fill loses exactly its recorded fee and slippage. */
  lemma FillCostsItsFriction(cash: real, holding: real, side: Side, quantity: real, price: real, m: Market)
    requires price >= 0.0 && m.slippagePct >= 0.0
    ensures var order := FilledAt(side, quantity, price, m);
            TotalValue(CashAfter(cash, order), HoldingAfter(holding, order), price)
              == TotalValue(cash, holding, price) - Friction(order)
  {
    var order := FilledAt(side, quantity, price, m);
    var slip := price * (m.slippagePct / 100.0);
    Risk.ScaleMonotone(0.0, m.slippagePct / 100.0, price);
    assert order.fillPrice == if side == BUY then price + slip else price - slip;
    assert order.slippage == slip * quantity;
    assert order.fillPrice * quantity == if side == BUY then price * quantity + slip * quantity
                                         else price * quantity - slip * quantity;
    assert HoldingAfter(holding, order) * price
        == if side == BUY then holding * price + quantity * price else holding * price - quantity * price;
  }

  // ---- Cash ----------------------------------------------------------------------------------------

  /** What a BUY of this notional takes out of the cash balance. */
  function BuyOutlay(notional: real, feePct: real, slippagePct: real): real {
    var filled := notional * (1.0 + slippagePct / 100.0);
    filled + filled * feePct / 100.0
  }

  /** The guard adds the two rates where the fill multiplies them; the gap is their product. */
  lemma OutlayExceedsProjectionByProduct(notional: real, feePct: real, slippagePct: real)
    ensures BuyOutlay(notional, feePct, slippagePct)
              == ProjectedCost(notional, feePct, slippagePct) + notional * (feePct / 100.0) * (slippagePct / 100.0)
  {
    var f, s := feePct / 100.0, slippagePct / 100.0;
    var filled := notional * (1.0 + s);
    assert filled * feePct / 100.0 == filled * f;
    assert filled == notional + notional * s;
    assert filled * f == notional * f + notional * s * f;
    assert notional * s * f == notional * f * s;
    assert notional * (1.0 + f + s) == notional + notional * f + notional * s;
  }

  lemma BuyTakesOutlay(cash: real, quantity: real, price: real, m: Market)
    ensures CashAfter(cash, FilledAt(BUY, quantity, price, m))
              == cash - BuyOutlay(quantity * price, m.feePct, m.slippagePct)
  {
    var factor := 1.0 + m.slippagePct / 100.0;
    assert price * factor * quantity == quantity * price * factor;
  }

  /** After an accepted BUY the balance is above minus notional times both rates. */
  lemma AcceptedBuyBound(ledger: Ledger, symbol: string, holding: real, quantity: real, m: Market)
    requires var a := PlaceBotOrder(ledger, symbol, holding, BUY, quantity, m); a.Booked? && a.order.FilledOrder?
    ensures PlaceBotOrder(ledger, symbol, holding, BUY, quantity, m).cash
              >= -(quantity * m.price.value * (m.feePct / 100.0) * (m.slippagePct / 100.0))
  {
    FillPassedGates(ledger, symbol, holding, BUY, quantity, m);
    BuyTakesOutlay(ledger.cash, quantity, m.price.value, m);
    OutlayExceedsProjectionByProduct(quantity * m.price.value, m.feePct, m.slippagePct);
  }

  /** A balance the guard lets through can pay for the fill. */
  ghost predicate GuardProtects(cash: real, notional: real, feePct: real, slippagePct: real) {
    ProjectedCost(notional, feePct, slippagePct) <= cash ==> cash - BuyOutlay(notional, feePct, slippagePct) >= 0.0
  }

  /** The guard protects every balance exactly when one of the two rates is zero. */
  lemma GuardSufficesExactlyWhenARateIsZero(notional: real, feePct: real, slippagePct: real)
    requires notional > 0.0 && feePct >= 0.0 && slippagePct >= 0.0
    ensures (forall cash: real :: GuardProtects(cash, notional, feePct, slippagePct))
            <==> feePct == 0.0 || slippagePct == 0.0
  {
    OutlayExceedsProjectionByProduct(notional, feePct, slippagePct);
    var f, s := feePct / 100.0, slippagePct / 100.0;
    var projected := ProjectedCost(notional, feePct, slippagePct);
    if feePct > 0.0 && slippagePct > 0.0 {
      assert notional * f > 0.0;
      assert notional * f * s > 0.0;
      assert !GuardProtects(projected, notional, feePct, slippagePct);
    } else {
      assert notional * f * s == 0.0;
    }
  }

  /** A fill is the order that was asked for, priced by the two rates: slippage moves the price against
      the account, the fee is charged on what was filled, and cash moves by their product. */
  lemma FillIsPricedByTheRates(cash: real, side: Side, quantity: real, price: real, m: Market)
    ensures var order := FilledAt(side, quantity, price, m);
            var slip := if side == BUY then m.slippagePct else -m.slippagePct;
            && order.side == side && order.quantity == quantity && order.at == m.now
            && order.fillPrice * 100.0 == price * (100.0 + slip)
            && order.fee * 100.0 == order.fillPrice * quantity * m.feePct
            && order.slippage == (if order.fillPrice >= price then order.fillPrice - price
                                  else price - order.fillPrice) * quantity
            && (CashAfter(cash, order) - cash) * 10000.0
               == if side == BUY then -(quantity * price * (100.0 + m.slippagePct) * (100.0 + m.feePct))
                  else quantity * price * (100.0 - m.slippagePct) * (100.0 - m.feePct)
  {
    var order := FilledAt(side, quantity, price, m);
    var rate := if side == BUY then 100.0 + m.slippagePct else 100.0 - m.slippagePct;
    assert order.fillPrice == price * (rate / 100.0);
    var filled := order.fillPrice * quantity;
    assert filled * 100.0 == quantity * price * rate;
    assert order.fee * 100.0 == filled * m.feePct;
    if side == BUY {
      assert (filled + order.fee) * 10000.0 == filled * 100.0 * (100.0 + m.feePct);
    } else {
      assert (filled - order.fee) * 10000.0 == filled * 100.0 * (100.0 - m.feePct);
    }
  }

  /** A SELL never takes cash away while both rates are percentages. */
  lemma SellAddsCash(cash: real, quantity: real, price: real, m: Market)
    requires quantity >= 0.0 && price >= 0.0
    requires 0.0 <= m.feePct <= 100.0 && 0.0 <= m.slippagePct <= 100.0
    ensures CashAfter(cash, FilledAt(SELL, quantity, price, m)) >= cash
  {
    var filled := price * (1.0 - m.slippagePct / 100.0);
    assert filled >= 0.0;
    var notional := filled * quantity;
    assert notional >= 0.0;
    Risk.ScaleMonotone(m.feePct / 100.0, 1.0, notional);
    assert notional * m.feePct / 100.0 == m.feePct / 100.0 * notional;
  }

  // ---- Risk ------------------------------------------------------------------------------------------

  /** Without fee and slippage, what an accepted BUY leaves behind respects both
      exposure limits measured against the value after the fill. */
  lemma AcceptedBuyRespectsExposure(ledger: Ledger, symbol: string, holding: real, quantity: real, m: Market)
    requires m.feePct == 0.0 && m.slippagePct == 0.0
    requires var a := PlaceBotOrder(ledger, symbol, holding, BUY, quantity, m); a.Booked? && a.order.FilledOrder?
    ensures var a := PlaceBotOrder(ledger, symbol, holding, BUY, quantity, m);
            var price := m.price.value;
            var after := HoldingAfter(holding, a.order);
            && m.limits.maxSymbolExposurePct.Some? && m.limits.maxTotalExposurePct.Some?
            && after * price * 100.0 <= m.limits.maxSymbolExposurePct.value * TotalValue(a.cash, after, price)
            && after * price * 100.0 <= m.limits.maxTotalExposurePct.value * TotalValue(a.cash, after, price)
  {
    FillPassedGates(ledger, symbol, holding, BUY, quantity, m);
    var price := m.price.value;
    var notional := quantity * price;
    AttemptComesOutExactly(ledger, symbol, holding, BUY, quantity, m,
                           PlaceBotOrder(ledger, symbol, holding, BUY, quantity, m));
    assert MayFill(ledger, symbol, holding, BUY, quantity, m);
    BuyTakesOutlay(ledger.cash, quantity, price, m);
    OutlayExceedsProjectionByProduct(notional, 0.0, 0.0);
    assert BuyOutlay(notional, 0.0, 0.0) == notional;
    assert (holding + quantity) * price == holding * price + notional;
  }
}
