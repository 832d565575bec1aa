/** The loops that rebuild realized P&L and trade statistics from order rows. */
module PortfolioStats {
  import opened Common
  import opened RoundTrips
  import opened Sorting
  import opened SimulationLedger
  import opened Alternation
  import CostBasis

  lemma PairOneMore(fills: seq<Fill>, i: nat, scope: Scope)
    requires i < |fills|
    ensures Pair(fills[..i + 1], scope) == Advance(Pair(fills[..i], scope), fills[i], scope)
  {
    assert fills[..i + 1][..i] == fills[..i];
  }

  /** Signed P&L of the round trips closed today, over fills in time order. */
  method RealizedOf(filled: seq<Fill>, todayStart: int) returns (realizedToday: real)
    ensures realizedToday == Pair(filled, Since(todayStart)).realized
  {
    realizedToday := 0.0;
    var openBuy: Option<Fill> := None;
    for i := 0 to |filled|
      invariant realizedToday == Pair(filled[..i], Since(todayStart)).realized
      invariant openBuy == Pair(filled[..i], Since(todayStart)).open
    {
      PairOneMore(filled, i, Since(todayStart));
      var order := filled[i];
      if order.side == BUY {
        openBuy := Some(order);
      } else if openBuy.Some? {
        var buyCost := openBuy.value.price * openBuy.value.quantity + openBuy.value.fee;
        var sellProceeds := order.price * order.quantity - order.fee;
        var pnl := sellProceeds - buyCost;
        if order.at >= todayStart {
          realizedToday := realizedToday + pnl;
        }
        openBuy := None;
      }
    }
    assert filled[..|filled|] == filled;
  }

  datatype TradeStats = TradeStats(tradeCount: nat, winRatePct: Option<real>)

  /** Closed round trips and the share of them that won, over fills in time order. */
  method StatsOf(filled: seq<Fill>) returns (stats: TradeStats)
    ensures stats.tradeCount == |ClosedTrips(filled)|
    ensures stats.winRatePct.None? <==> ClosedTrips(filled) == {}
    ensures stats.winRatePct.Some? ==>
              stats.winRatePct.value == |WinningTrips(filled)| as real / |ClosedTrips(filled)| as real * 100.0
              && 0.0 <= stats.winRatePct.value <= 100.0
  {
    var roundTrips, wins := 0, 0;
    var openBuy: Option<Fill> := None;
    for i := 0 to |filled|
      invariant Pair(filled[..i], All).trips == roundTrips && Pair(filled[..i], All).wins == wins
      invariant openBuy == Pair(filled[..i], All).open
      invariant wins <= roundTrips
    {
      PairOneMore(filled, i, All);
      var order := filled[i];
      if order.side == BUY {
        openBuy := Some(order);
      } else if openBuy.Some? {
        var buyCost := openBuy.value.price * openBuy.value.quantity + openBuy.value.fee;
        var sellProceeds := order.price * order.quantity - order.fee;
        roundTrips := roundTrips + 1;
        if sellProceeds > buyCost {
          wins := wins + 1;
        }
        openBuy := None;
      }
    }
    assert filled[..|filled|] == filled;
    CountersCountTrips(filled, All);
    if roundTrips == 0 {
      return TradeStats(0, None);
    }
    ShareIsAPercentage(wins, roundTrips);
    return TradeStats(roundTrips, Some(wins as real / roundTrips as real * 100.0));
  }

  lemma ShareIsAPercentage(part: nat, whole: nat)
    requires part <= whole && whole > 0
    ensures 0.0 <= part as real / whole as real * 100.0 <= 100.0
  {
    var q := part as real / whole as real;
    assert q * whole as real == part as real;
    assert 0.0 <= q <= 1.0;
  }

  // ---- Simulation rows ---------------------------------------------------------------------------

  /** The generator expression that picks the FILLED rows. */
  method FilledRows(orders: seq<SimOrder>) returns (filled: seq<Fill>)
    ensures filled == Fills(orders)
  {
    filled := [];
    for i := 0 to |orders|
      invariant filled == Fills(orders[..i])
    {
      assert orders[..i + 1][..i] == orders[..i];
      if orders[i].FilledOrder? {
        filled := filled + [AsFill(orders[i])];
      }
    }
    assert orders[..|orders|] == orders;
  }

  method ComputeRealizedPnlToday(orders: seq<SimOrder>, todayStart: int) returns (r: real)
    ensures r == ClosedSince(orders, todayStart)
    ensures r == AdjacentPnl(ByTime(Fills(orders)), |Fills(orders)|, Since(todayStart))
    ensures r == RealizedToday(orders, todayStart)
  {
    var filled := FilledRows(orders);
    WalkPairsNeighbours(ByTime(filled), Since(todayStart));
    r := RealizedOf(SortBy(filled, Time), todayStart);
  }

  method ComputeTradeStats(orders: seq<SimOrder>) returns (stats: TradeStats)
    ensures var filled := ByTime(Fills(orders));
            && stats.tradeCount == |ClosedTrips(filled)|
            && (stats.winRatePct.None? <==> stats.tradeCount == 0)
            && (stats.winRatePct.Some? ==>
                  stats.winRatePct.value == |WinningTrips(filled)| as real / |ClosedTrips(filled)| as real * 100.0
                  && 0.0 <= stats.winRatePct.value <= 100.0)
  {
    var filled := FilledRows(orders);
    stats := StatsOf(SortBy(filled, Time));
  }

  // ---- Live rows -----------------------------------------------------------------------------------

  /** What the live statistics read of an order row. */
  datatype LiveOrder = LiveOrder(
    side: Side, status: OrderStatus, executed: real, averageFillPrice: Option<real>, terminalAt: Option<int>)

  predicate IsRealFill(order: LiveOrder) {
    order.status == OrderStatus.FILLED && order.terminalAt.Some? && order.averageFillPrice.Some?
  }

  /** Live rows carry no fee. */
  function AsLiveFill(order: LiveOrder): Fill
    requires IsRealFill(order)
  {
    Fill(order.side, order.averageFillPrice.value, order.executed, 0.0, order.terminalAt.value)
  }

  function LiveFills(orders: seq<LiveOrder>): seq<Fill> {
    if orders == [] then []
    else
      var last := orders[|orders| - 1];
      LiveFills(orders[..|orders| - 1]) + if IsRealFill(last) then [AsLiveFill(last)] else []
  }

  /** The rows a statistic may count: FILLED, with a time and an average price. */
  ghost function ReportedIndices(orders: seq<LiveOrder>): set<int> {
    set i | 0 <= i < |orders| && orders[i].status == OrderStatus.FILLED && orders[i].terminalAt.Some?
            && orders[i].averageFillPrice.Some?
  }

  /** One fill for each of these rows and no other, in the rows' order: row `i` comes behind the fills of
      the rows before it, with its own side, average price, executed quantity and time, and no fee. */
  lemma {:induction false} LiveFillsAreTheReportedRows(orders: seq<LiveOrder>, i: nat)
    ensures |LiveFills(orders)| == |ReportedIndices(orders)|
    ensures i in ReportedIndices(orders) ==>
              && |LiveFills(orders[..i])| < |LiveFills(orders)|
              && LiveFills(orders)[|LiveFills(orders[..i])|]
                 == Fill(orders[i].side, orders[i].averageFillPrice.value, orders[i].executed, 0.0,
                         orders[i].terminalAt.value)
  {
    if orders != [] {
      var n := |orders| - 1;
      var front := orders[..n];
      LiveFillsAreTheReportedRows(front, i);
      assert ReportedIndices(orders) == ReportedIndices(front) + if n in ReportedIndices(orders) then {n} else {};
      if i < n {
        assert front[..i] == orders[..i];
      }
    }
  }

  lemma {:induction false} LiveFillsCarryNoFee(orders: seq<LiveOrder>)
    ensures forall i :: 0 <= i < |LiveFills(orders)| ==> LiveFills(orders)[i].fee == 0.0
  {
    if orders != [] {
      LiveFillsCarryNoFee(orders[..|orders| - 1]);
    }
  }

  /** On rows whose fills alternate in time order, the live statistics and the exchange's own trade
      history tell the same realized P&L. */
  lemma LiveRowsAgreeWithTradeHistory(orders: seq<LiveOrder>, start: int)
    requires !ExposureOf(Legs(ByTime(LiveFills(orders)))).Broken?
    ensures Pair(ByTime(LiveFills(orders)), Since(start)).realized
         == CostBasis.AssetRealized(CostBasis.AsTrades(LiveFills(orders)), start)
  {
    LiveFillsCarryNoFee(orders);
    CostBasis.PairingEqualsCostBasis(LiveFills(orders), start);
  }

  method FilledLiveRows(orders: seq<LiveOrder>) returns (filled: seq<Fill>)
    ensures filled == LiveFills(orders)
  {
    filled := [];
    for i := 0 to |orders|
      invariant filled == LiveFills(orders[..i])
    {
      assert orders[..i + 1][..i] == orders[..i];
      if IsRealFill(orders[i]) {
        filled := filled + [AsLiveFill(orders[i])];
      }
    }
    assert orders[..|orders|] == orders;
  }

  method ComputeLiveRealizedPnlToday(orders: seq<LiveOrder>, todayStart: int) returns (r: real)
    ensures r == AdjacentPnl(ByTime(LiveFills(orders)), |ByTime(LiveFills(orders))|, Since(todayStart))
    ensures r == Pair(ByTime(LiveFills(orders)), Since(todayStart)).realized
    ensures !ExposureOf(Legs(ByTime(LiveFills(orders)))).Broken? ==>
              r == CostBasis.AssetRealized(CostBasis.AsTrades(LiveFills(orders)), todayStart)
  {
    var filled := FilledLiveRows(orders);
    WalkPairsNeighbours(ByTime(filled), Since(todayStart));
    r := RealizedOf(SortBy(filled, Time), todayStart);
    if !ExposureOf(Legs(ByTime(filled))).Broken? {
      LiveRowsAgreeWithTradeHistory(orders, todayStart);
    }
  }

  method ComputeLiveTradeStats(orders: seq<LiveOrder>) returns (stats: TradeStats)
    ensures var filled := ByTime(LiveFills(orders));
            && stats.tradeCount == |ClosedTrips(filled)|
            && (stats.winRatePct.None? <==> stats.tradeCount == 0)
            && (stats.winRatePct.Some? ==>
                  stats.winRatePct.value == |WinningTrips(filled)| as real / |ClosedTrips(filled)| as real * 100.0
                  && 0.0 <= stats.winRatePct.value <= 100.0)
  {
    var filled := FilledLiveRows(orders);
    stats := StatsOf(SortBy(filled, Time));
  }
}
