/** What the virtual account promises on every run of a bot. */
module SimulationRuns {
  import opened Common
  import opened Idempotency
  import opened Alternation
  import opened RoundTrips
  import opened Sorting
  import opened SimulationLedger
  import opened BotMachine
  import Validator = OrderValidator
  import Risk = RiskEngine

  // ---- P&L telescopes to cash, in whatever order the rows are read ---------------------------------

  /** The wall clock advances between simulated attempts. */
  ghost predicate ClockTicks(events: seq<Event>) {
    forall i, j :: 0 <= i < j < |events| && events[i].SimTransition? && events[j].SimTransition? ==>
      events[i].market.now < events[j].market.now
  }

  ghost predicate StampedBy(fills: seq<Fill>, events: seq<Event>) {
    forall k :: 0 <= k < |fills| ==> exists i :: 0 <= i < |events| && Stamps(events[i], fills[k].at)
  }

  ghost predicate Stamps(e: Event, at: int) { e.SimTransition? && e.market.now == at }

  ghost predicate StrictlyTimed(fills: seq<Fill>) {
    forall i, j :: 0 <= i < j < |fills| ==> fills[i].at < fills[j].at
  }

  lemma AttemptIsStamped(d: Desk, op: Op, m: Market)
    ensures AttemptOf(d, op, m).Booked? ==> AttemptOf(d, op, m).order.at == m.now
  {
  }

  lemma NewestFillIsStamped(fills: seq<Fill>, after: seq<Fill>, events: seq<Event>)
    requires events != [] && ClockTicks(events)
    requires StampedBy(fills, events[..|events| - 1]) && StrictlyTimed(fills)
    requires after == fills || (|after| == |fills| + 1 && after[..|fills|] == fills
                                && Stamps(events[|events| - 1], after[|fills|].at))
    ensures StampedBy(after, events) && StrictlyTimed(after)
  {
    var front, last := events[..|events| - 1], events[|events| - 1];
    forall k | 0 <= k < |fills|
      ensures exists i :: 0 <= i < |events| && Stamps(events[i], after[k].at)
      ensures last.SimTransition? ==> after[k].at < last.market.now
    {
      assert after[k] == after[..|fills|][k] == fills[k];
      var i :| 0 <= i < |front| && Stamps(front[i], fills[k].at);
      assert Stamps(events[i], fills[k].at);
    }
    if |after| > |fills| {
      assert Stamps(events[|events| - 1], after[|fills|].at);
    }
  }

  lemma StepAppendsAtMostOneFill(d: Desk, e: Event, fills: seq<Fill>, after: seq<Fill>)
    requires fills == Fills(d.ledger.orders) && after == Fills(BotMachine.Step(d, e).ledger.orders)
    ensures after == fills || (|after| == |fills| + 1 && after[..|fills|] == fills && Stamps(e, after[|fills|].at))
  {
    if e.SimTransition? && Admits(d.bot, e) {
      AttemptIsStamped(d, e.op, e.market);
      var a := AttemptOf(d, e.op, e.market);
      if a.Booked? {
        FillsSnoc(d.ledger.orders, a.order);
      }
    }
  }

  /** The rows of a run carry the times of its attempts, in order. */
  lemma {:induction false} FillsFollowTheClock(d: Desk, events: seq<Event>)
    requires ClockTicks(events) && d.ledger.orders == []
    ensures StampedBy(Fills(Run(d, events).ledger.orders), events)
    ensures StrictlyTimed(Fills(Run(d, events).ledger.orders))
  {
    if events != [] {
      var front := events[..|events| - 1];
      FillsFollowTheClock(d, front);
      var fills, after := Fills(Run(d, front).ledger.orders), Fills(Run(d, events).ledger.orders);
      StepAppendsAtMostOneFill(Run(d, front), events[|events| - 1], fills, after);
      NewestFillIsStamped(fills, after, events);
    }
  }

  lemma {:induction false} FillsConcat(a: seq<SimOrder>, b: seq<SimOrder>)
    ensures Fills(a + b) == Fills(a) + Fills(b)
  {
    if b == [] {
      assert a + b == a;
    } else {
      FillsConcat(a, b[..|b| - 1]);
      assert (a + b)[..|a + b| - 1] == a + b[..|b| - 1];
    }
  }

  lemma FillsWithout(orders: seq<SimOrder>, i: nat)
    requires i < |orders|
    ensures var rest := orders[..i] + orders[i + 1..];
            && multiset(rest) == multiset(orders) - multiset{orders[i]}
            && multiset(Fills(orders)) == multiset(Fills(rest)) + multiset(Fills([orders[i]]))
  {
    var left, right := orders[..i], orders[i + 1..];
    assert orders == left + ([orders[i]] + right);
    FillsConcat(left, [orders[i]] + right);
    FillsConcat([orders[i]], right);
    FillsConcat(left, right);
  }

  lemma {:induction false} FillsOfPermutation(rows: seq<SimOrder>, orders: seq<SimOrder>)
    requires multiset(rows) == multiset(orders)
    ensures multiset(Fills(rows)) == multiset(Fills(orders))
  {
    if rows == [] {
      assert |multiset(orders)| == 0;
    } else {
      var front, last := rows[..|rows| - 1], rows[|rows| - 1];
      assert rows == front + [last];
      FillsConcat(front, [last]);
      BagOfFront(rows);
      assert last in multiset(orders);
      var i :| 0 <= i < |orders| && orders[i] == last;
      FillsWithout(orders, i);
      FillsOfPermutation(front, orders[..i] + orders[i + 1..]);
    }
  }

  lemma RowsInAnyOrder(rows: seq<SimOrder>, orders: seq<SimOrder>)
    requires multiset(rows) == multiset(orders) && StrictlyTimed(Fills(orders))
    ensures ByTime(Fills(rows)) == Fills(orders)
  {
    FillsOfPermutation(rows, orders);
    ArrivalOrderIsIrrelevant(Fills(orders), Fills(rows), Time);
    SortByFixesAscending(Fills(orders), Time);
  }

  /** In every reachable state, however the rows are delivered: cash above the capital
      is the P&L of all closed round trips minus the cost of the open BUY, and the
      day's part plus the earlier part is the whole. */
  lemma PnlTelescopesOnEveryRun(user: nat, symbol: string, target: real, capital: real, events: seq<Event>,
                                rows: seq<SimOrder>, today: int)
    requires ClockTicks(events)
    requires multiset(rows) == multiset(Run(NewDesk(user, symbol, target, capital), events).ledger.orders)
    ensures var cash := Run(NewDesk(user, symbol, target, capital), events).ledger.cash;
            var total := Pair(ByTime(Fills(rows)), All);
            && cash - capital == total.realized - OpenCost(total)
            && RealizedToday(rows, today) + Pair(ByTime(Fills(rows)), Before(today)).realized == total.realized
  {
    var d := Run(NewDesk(user, symbol, target, capital), events);
    FillsFollowTheClock(NewDesk(user, symbol, target, capital), events);
    RowsInAnyOrder(rows, d.ledger.orders);
    CoupledOverRuns(user, symbol, target, capital, events);
    CapitalIsFrozen(NewDesk(user, symbol, target, capital), events);
    PnlTelescopesToCash(Fills(d.ledger.orders));
    TodayPlusEarlierIsTotal(Fills(d.ledger.orders), today);
  }

  // ---- Equity ----------------------------------------------------------------------------------------

  /** The last market price an attempt saw. */
  function MarkAfter(events: seq<Event>, start: real): real {
    if events == [] then start
    else
      var e := events[|events| - 1];
      if e.SimTransition? && e.market.price.Ok? then e.market.price.value
      else MarkAfter(events[..|events| - 1], start)
  }

  /** Held quantity times price move, summed over the run. */
  function MarketGain(d: Desk, events: seq<Event>, start: real): real {
    if events == [] then 0.0
    else
      var front := events[..|events| - 1];
      MarketGain(d, front, start) + Run(d, front).bot.current * (MarkAfter(events, start) - MarkAfter(front, start))
  }

  /** Prices and the slippage rate are not negative. */
  ghost predicate SaneMarket(m: Market) {
    (m.price.Ok? ==> m.price.value >= 0.0) && m.slippagePct >= 0.0
  }

  ghost predicate SaneMarkets(events: seq<Event>) {
    forall i :: 0 <= i < |events| && events[i].SimTransition? ==> SaneMarket(events[i].market)
  }

  function Equity(d: Desk, mark: real): real { TotalValue(d.ledger.cash, d.bot.current, mark) }

  lemma RemarkMovesEquity(d: Desk, before: real, after: real)
    ensures Equity(d, after) == Equity(d, before) + d.bot.current * (after - before)
  {
  }

  lemma AttemptMovesEquity(d: Desk, op: Op, m: Market, mark: real)
    requires Lifecycle(d.bot) && Admits(d.bot, SimTransition(op, m)) && SaneMarket(m)
    requires m.price.Ok? ==> mark == m.price.value
    ensures var t := BotMachine.Step(d, SimTransition(op, m));
            Equity(t, mark) == Equity(d, mark) - (Frictions(t.ledger.orders) - Frictions(d.ledger.orders))
  {
    var a := AttemptOf(d, op, m);
    AttemptFacts(d, op, m);
    if a.Booked? {
      FillsSnoc(d.ledger.orders, a.order);
      if a.order.FilledOrder? {
        FillPassedGates(d.ledger, d.bot.symbol, d.bot.current, SideOf(op), QuantityOf(op, d.bot), m);
        FillCostsItsFriction(d.ledger.cash, d.bot.current, SideOf(op), QuantityOf(op, d.bot), mark, m);
        assert HoldingAfter(d.bot.current, a.order) == BotMachine.Step(d, SimTransition(op, m)).bot.current;
      }
    }
  }

  lemma StepMovesEquity(d: Desk, e: Event, before: real, after: real)
    requires Lifecycle(d.bot) && (e.SimTransition? ==> SaneMarket(e.market))
    requires after == if e.SimTransition? && e.market.price.Ok? then e.market.price.value else before
    requires BotMachine.Step(d, e).bot.mode == SIMULATION
    ensures var t := BotMachine.Step(d, e);
            Equity(t, after) == Equity(d, before) + d.bot.current * (after - before)
                                - (Frictions(t.ledger.orders) - Frictions(d.ledger.orders))
  {
    RemarkMovesEquity(d, before, after);
    if e.SimTransition? && Admits(d.bot, e) {
      AttemptMovesEquity(d, e.op, e.market, after);
    }
  }

  /** Equity is the capital, plus a gain, minus the recorded frictions. */
  ghost predicate Decomposes(d: Desk, mark: real, capital: real, gain: real) {
    Equity(d, mark) == capital + gain - Frictions(d.ledger.orders)
  }

  lemma StepKeepsDecomposition(d: Desk, e: Event, t: Desk, before: real, after: real, capital: real,
                               gain: real, moved: real)
    requires Lifecycle(d.bot) && (e.SimTransition? ==> SaneMarket(e.market))
    requires after == if e.SimTransition? && e.market.price.Ok? then e.market.price.value else before
    requires t == BotMachine.Step(d, e) && t.bot.mode == SIMULATION && Decomposes(d, before, capital, gain)
    requires moved == gain + d.bot.current * (after - before)
    ensures Decomposes(t, after, capital, moved)
  {
    StepMovesEquity(d, e, before, after);
  }

  /** On every run of a simulated bot, equity at the last seen price is the capital
      plus what the market moved while it held, minus every recorded fee and slippage. */
  lemma {:induction false} EquityDecomposes(first: Desk, capital: real, events: seq<Event>, start: real)
    requires first == NewDesk(first.bot.user, first.bot.symbol, first.bot.target, capital)
    requires SaneMarkets(events) && Run(first, events).bot.mode == SIMULATION
    ensures Decomposes(Run(first, events), MarkAfter(events, start), capital, MarketGain(first, events, start))
  {
    if events == [] {
      NothingMovedYet(first, capital, start);
    } else {
      var front, e := events[..|events| - 1], events[|events| - 1];
      EquityDecomposes(first, capital, front, start);
      LifecycleOverRuns(first.bot.user, first.bot.symbol, first.bot.target, capital, front);
      StepKeepsDecomposition(Run(first, front), e, Run(first, events), MarkAfter(front, start),
                             MarkAfter(events, start),
                             capital, MarketGain(first, front, start), MarketGain(first, events, start));
    }
  }

  lemma NothingMovedYet(first: Desk, capital: real, mark: real)
    requires first.ledger == Ledger(capital, capital, []) && first.bot.current == 0.0
    ensures Decomposes(first, mark, capital, 0.0)
  {
  }

  // ---- Cash --------------------------------------------------------------------------------------------

  /** ... and both rates are percentages. */
  ghost predicate FairMarket(m: Market) {
    SaneMarket(m) && 0.0 <= m.feePct <= 100.0 && m.slippagePct <= 100.0
  }

  ghost predicate FairMarkets(events: seq<Event>) {
    forall i :: 0 <= i < |events| && events[i].SimTransition? ==> FairMarket(events[i].market)
  }

  ghost predicate OneRateIsZero(events: seq<Event>) {
    forall i :: 0 <= i < |events| && events[i].SimTransition? ==>
      events[i].market.feePct == 0.0 || events[i].market.slippagePct == 0.0
  }

  lemma AttemptKeepsCash(d: Desk, op: Op, m: Market)
    requires d.ledger.cash >= 0.0 && FairMarket(m) && (m.feePct == 0.0 || m.slippagePct == 0.0)
    requires Admits(d.bot, SimTransition(op, m))
    ensures BotMachine.Step(d, SimTransition(op, m)).ledger.cash >= 0.0
  {
    var a := AttemptOf(d, op, m);
    AttemptFacts(d, op, m);
    if a.Booked? && a.order.FilledOrder? {
      FillPassedGates(d.ledger, d.bot.symbol, d.bot.current, SideOf(op), QuantityOf(op, d.bot), m);
      if op.Resume? {
        var notional := QuantityOf(op, d.bot) * m.price.value;
        AcceptedBuyBound(d.ledger, d.bot.symbol, d.bot.current, QuantityOf(op, d.bot), m);
        assert notional * (m.feePct / 100.0) * (m.slippagePct / 100.0) == 0.0;
      } else {
        SellAddsCash(d.ledger.cash, QuantityOf(op, d.bot), m.price.value, m);
      }
    }
  }

  /** With one of the two rates at zero, no run overdraws the virtual account. */
  lemma {:induction false} CashIsNeverNegative(user: nat, symbol: string, target: real, capital: real,
                                               events: seq<Event>)
    requires capital >= 0.0 && FairMarkets(events) && OneRateIsZero(events)
    ensures Run(NewDesk(user, symbol, target, capital), events).ledger.cash >= 0.0
  {
    if events != [] {
      var front, e := events[..|events| - 1], events[|events| - 1];
      CashIsNeverNegative(user, symbol, target, capital, front);
      var before := Run(NewDesk(user, symbol, target, capital), front);
      if e.SimTransition? && Admits(before.bot, e) {
        AttemptKeepsCash(before, e.op, e.market);
      }
    }
  }

  // ---- Which rates can overdraw the account -------------------------------------------------------------

  const SAMPLE_LIMITS :=
    Risk.RiskLimits(Some(1000.0), Some(100.0), Some(100.0), Some(100.0), Some(1), Some({"BTCUSDT"}))

  const SAMPLE_FILTERS := Validator.SymbolFilters(true, 0.0, 1000.0, 0.0, 0.0, 1000.0, 0.0, 0.0)

  /** One unit at price one, with these rates. */
  function UnitMarket(feePct: real, slippagePct: real): Market {
    Market(true, Ok(1.0), Ok(SAMPLE_FILTERS), SAMPLE_LIMITS, feePct, slippagePct, 1, 0)
  }

  /** The capital that the cash guard just lets through. */
  function BarelyEnough(feePct: real, slippagePct: real): real { ProjectedCost(1.0, feePct, slippagePct) }

  lemma BarelyEnoughIsWithinLimits(capital: real, m: Market)
    requires capital >= 1.0 && m.limits == SAMPLE_LIMITS && m.todayStart == 0
    ensures Risk.WithinLimits(m.limits, Risk.RiskRequest("BTCUSDT", BUY, 1.0, true),
                              Snapshot(Ledger(capital, capital, []), 0.0, 1.0, 0))
  {
    var snapshot := Snapshot(Ledger(capital, capital, []), 0.0, 1.0, 0);
    assert ByTime([]) == [];
    assert snapshot == Risk.RiskSnapshot(capital, 0.0, 0.0, 0, 0.0);
  }

  lemma UnitBuyFills(feePct: real, slippagePct: real, capital: real, a: Attempt)
    requires feePct >= 0.0 && slippagePct >= 0.0 && capital == BarelyEnough(feePct, slippagePct)
    requires a == PlaceBotOrder(Ledger(capital, capital, []), "BTCUSDT", 0.0, BUY, 1.0, UnitMarket(feePct, slippagePct))
    ensures a.Booked? && a.cash == -(feePct / 100.0 * (slippagePct / 100.0))
  {
    var m, ledger := UnitMarket(feePct, slippagePct), Ledger(capital, capital, []);
    BarelyEnoughIsWithinLimits(capital, m);
    assert Validator.MeetsRules(MarketRequest(BUY, 1.0), 1.0, SAMPLE_FILTERS);
    AttemptComesOutExactly(ledger, "BTCUSDT", 0.0, BUY, 1.0, m, a);
    FillPassedGates(ledger, "BTCUSDT", 0.0, BUY, 1.0, m);
    BuyTakesOutlay(capital, 1.0, 1.0, m);
    OutlayExceedsProjectionByProduct(1.0, feePct, slippagePct);
  }

  lemma BookedResumeTakesItsCash(d: Desk, m: Market, a: Attempt)
    requires d.bot.mode == SIMULATION && d.bot.status == PAUSED && a == AttemptOf(d, Resume, m) && a.Booked?
    ensures BotMachine.Step(d, SimTransition(Resume, m)).ledger.cash == a.cash
  {
  }

  lemma RunOfOne(d: Desk, e: Event, after: Desk)
    requires after == BotMachine.Step(d, e)
    ensures Run(d, [e]) == after
  {
    RunSnoc(d, [], e);
    assert [] + [e] == [e];
  }

  /** For any two rates there is a run that leaves minus their product. */
  lemma SomeRunEndsAtMinusTheProduct(feePct: real, slippagePct: real, first: Desk, m: Market, after: Desk)
    requires feePct >= 0.0 && slippagePct >= 0.0 && m == UnitMarket(feePct, slippagePct)
    requires first == NewDesk(1, "BTCUSDT", 1.0, BarelyEnough(feePct, slippagePct))
    requires after == Run(first, [SimTransition(Resume, m)])
    ensures after.ledger.cash == -(feePct / 100.0 * (slippagePct / 100.0))
  {
    var a := AttemptOf(first, Resume, m);
    UnitBuyFills(feePct, slippagePct, BarelyEnough(feePct, slippagePct), a);
    BookedResumeTakesItsCash(first, m, a);
    RunOfOne(first, SimTransition(Resume, m), BotMachine.Step(first, SimTransition(Resume, m)));
  }

  ghost predicate AtRates(events: seq<Event>, feePct: real, slippagePct: real) {
    forall i :: 0 <= i < |events| && events[i].SimTransition? ==>
      events[i].market.feePct == feePct && events[i].market.slippagePct == slippagePct
  }

  /** Some bot, on some run at these rates, ends with negative cash. */
  ghost predicate CanOverdraw(feePct: real, slippagePct: real) {
    exists first: Desk, events: seq<Event> :: Overdraws(first, events, feePct, slippagePct)
  }

  ghost predicate Overdraws(first: Desk, events: seq<Event>, feePct: real, slippagePct: real) {
    var capital := first.ledger.initialCapital;
    && first == NewDesk(first.bot.user, first.bot.symbol, first.bot.target, capital) && capital >= 0.0
    && FairMarkets(events) && AtRates(events, feePct, slippagePct) && Run(first, events).ledger.cash < 0.0
  }

  /** Over whole runs: the account can be overdrawn exactly when both rates are positive. */
  lemma OverdraftPossibleExactlyWithBothRates(feePct: real, slippagePct: real)
    requires 0.0 <= feePct <= 100.0 && 0.0 <= slippagePct <= 100.0
    ensures CanOverdraw(feePct, slippagePct) <==> feePct > 0.0 && slippagePct > 0.0
  {
    if feePct > 0.0 && slippagePct > 0.0 {
      var first := NewDesk(1, "BTCUSDT", 1.0, BarelyEnough(feePct, slippagePct));
      var events := [SimTransition(Resume, UnitMarket(feePct, slippagePct))];
      SomeRunEndsAtMinusTheProduct(feePct, slippagePct, first, UnitMarket(feePct, slippagePct), Run(first, events));
      assert feePct / 100.0 * (slippagePct / 100.0) > 0.0;
      assert Overdraws(first, events, feePct, slippagePct);
    } else {
      forall first: Desk, events: seq<Event> ensures !Overdraws(first, events, feePct, slippagePct) {
        RateAtZeroNeverOverdraws(first, events, feePct, slippagePct);
      }
    }
  }

  lemma RateAtZeroNeverOverdraws(first: Desk, events: seq<Event>, feePct: real, slippagePct: real)
    requires feePct == 0.0 || slippagePct == 0.0
    ensures !Overdraws(first, events, feePct, slippagePct)
  {
    var capital := first.ledger.initialCapital;
    if first == NewDesk(first.bot.user, first.bot.symbol, first.bot.target, capital) && capital >= 0.0
       && FairMarkets(events) && AtRates(events, feePct, slippagePct) {
      CashIsNeverNegative(first.bot.user, first.bot.symbol, first.bot.target, capital, events);
    }
  }
}
