/** Weighted-average cost basis over an asset's trade history. */
module CostBasis {
  import opened Common
  import opened Alternation
  import opened RoundTrips
  import opened Sorting

  datatype Trade = Trade(time: Option<int>, isBuyer: bool, qty: real, price: real)

  /** What the walk tracks: held quantity and what it cost. */
  datatype Basis = Basis(held: real, cost: real)

  /** One entry per trade. */
  datatype Entry = Entry(at: int, held: real, average: real, realized: real)

  function TimeOf(t: Trade): int { if t.time.Some? then t.time.value else 0 }

  function Min(a: real, b: real): real { if a <= b then a else b }

  /** The part of a sale that is covered by tracked holdings; the rest is ignored. */
  function Sold(b: Basis, t: Trade): real {
    if t.isBuyer || b.held <= 0.0 then 0.0 else Min(t.qty, b.held)
  }

  function Average(b: Basis): real { if b.held > 0.0 then b.cost / b.held else 0.0 }

  function Traded(b: Basis, t: Trade): Basis {
    if t.isBuyer then Basis(b.held + t.qty, b.cost + t.qty * t.price)
    else Basis(b.held - Sold(b, t), b.cost - Average(b) * Sold(b, t))
  }

  function Realized(b: Basis, t: Trade): real { (t.price - Average(b)) * Sold(b, t) }

  function EntryOf(b: Basis, t: Trade): Entry {
    var after := Traded(b, t);
    Entry(TimeOf(t), after.held, Average(after), Realized(b, t))
  }

  function BasisAfter(trades: seq<Trade>): Basis {
    if trades == [] then Basis(0.0, 0.0) else Traded(BasisAfter(trades[..|trades| - 1]), trades[|trades| - 1])
  }

  function Entries(trades: seq<Trade>): (r: seq<Entry>)
    ensures |r| == |trades|
  {
    if trades == [] then []
    else
      var front := trades[..|trades| - 1];
      Entries(front) + [EntryOf(BasisAfter(front), trades[|trades| - 1])]
  }

  lemma WalkOneMore(trades: seq<Trade>, i: nat)
    requires i < |trades|
    ensures BasisAfter(trades[..i + 1]) == Traded(BasisAfter(trades[..i]), trades[i])
    ensures Entries(trades[..i + 1]) == Entries(trades[..i]) + [EntryOf(BasisAfter(trades[..i]), trades[i])]
  {
    assert trades[..i + 1][..i] == trades[..i];
  }

  method CostBasisWalk(trades: seq<Trade>) returns (steps: seq<Entry>)
    ensures steps == Entries(SortBy(trades, TimeOf))
    ensures var sorted := SortBy(trades, TimeOf);
            && multiset(sorted) == multiset(trades)
            && (forall i, j :: 0 <= i < j < |steps| ==> steps[i].at <= steps[j].at)
            && (PositiveQuantities(trades) ==> forall i :: 0 <= i < |steps| ==> FollowsAt(steps, sorted, i))
  {
    var sortedTrades := SortBy(trades, TimeOf);
    var heldQty, totalCost := 0.0, 0.0;
    steps := [];
    for i := 0 to |sortedTrades|
      invariant Basis(heldQty, totalCost) == BasisAfter(sortedTrades[..i])
      invariant steps == Entries(sortedTrades[..i])
    {
      WalkOneMore(sortedTrades, i);
      var step;
      heldQty, totalCost, step := WalkTrade(heldQty, totalCost, sortedTrades[i]);
      steps := steps + [step];
    }
    assert sortedTrades[..|sortedTrades|] == sortedTrades;
    WalkIsTold(trades, sortedTrades, steps);
  }

  /** The loop body for one trade. */
  method WalkTrade(heldBefore: real, costBefore: real, trade: Trade)
    returns (heldQty: real, totalCost: real, step: Entry)
    ensures Basis(heldQty, totalCost) == Traded(Basis(heldBefore, costBefore), trade)
    ensures step == EntryOf(Basis(heldBefore, costBefore), trade)
    ensures step.held == heldQty && (heldQty > 0.0 ==> step.average * heldQty == totalCost)
  {
    heldQty, totalCost := heldBefore, costBefore;
    var realizedDelta := 0.0;
    if trade.isBuyer {
      totalCost := totalCost + trade.qty * trade.price;
      heldQty := heldQty + trade.qty;
    } else if heldQty > 0.0 {
      var avgCost := totalCost / heldQty;
      var soldQty := Min(trade.qty, heldQty);
      realizedDelta := (trade.price - avgCost) * soldQty;
      totalCost := totalCost - avgCost * soldQty;
      heldQty := heldQty - soldQty;
    }
    var avgCostAfter := if heldQty > 0.0 then totalCost / heldQty else 0.0;
    step := Entry(TimeOf(trade), heldQty, avgCostAfter, realizedDelta);
  }

  /** Entry `i` tells the state after the first `i + 1` trades. */
  lemma {:induction false} EntriesFollowPrefixes(trades: seq<Trade>, i: nat)
    requires i < |trades|
    ensures |Entries(trades)| == |trades|
    ensures Entries(trades)[i] == EntryOf(BasisAfter(trades[..i]), trades[i])
    ensures Entries(trades)[i].held == BasisAfter(trades[..i + 1]).held
  {
    var front := trades[..|trades| - 1];
    assert trades[..i + 1][..i] == trades[..i];
    if i < |front| {
      EntriesFollowPrefixes(front, i);
      assert front[..i] == trades[..i] && front[..i + 1] == trades[..i + 1];
    } else {
      assert trades[..i] == front;
    }
  }

  // ---- The walk as its entries tell it --------------------------------------------------------

  /** What one entry says after the one before, in quantities and prices alone: a purchase is averaged in
      at its price; a sale takes what is held and no more, realizes the price over the average for that
      much, and keeps the average of what is left. */
  ghost predicate Follows(before: Option<Entry>, t: Trade, e: Entry) {
    var held, average := if before.Some? then before.value.held else 0.0,
        if before.Some? then before.value.average else 0.0;
    && (t.time.Some? ==> e.at == t.time.value) && (t.time.None? ==> e.at == 0)
    && (if t.isBuyer then
          e.held == held + t.qty && e.realized == 0.0 && e.average * e.held == average * held + t.qty * t.price
        else if t.qty < held then
          e.held == held - t.qty && e.average == average && e.realized == t.qty * (t.price - average)
        else e.held == 0.0 && e.average == 0.0 && e.realized == held * (t.price - average))
  }

  ghost predicate FollowsAt(entries: seq<Entry>, trades: seq<Trade>, i: nat)
    requires i < |entries| == |trades|
  {
    Follows(if i == 0 then None else Some(entries[i - 1]), trades[i], entries[i])
  }

  lemma AverageTimesHeld(b: Basis)
    requires b.held > 0.0
    ensures Average(b) * b.held == b.cost
  {
  }

  lemma EntryFollows(b: Basis, t: Trade, before: Option<Entry>)
    requires t.qty > 0.0 && b.held >= 0.0 && (b.held == 0.0 ==> b.cost == 0.0)
    requires if before.Some? then before.value.held == b.held && before.value.average == Average(b)
             else b == Basis(0.0, 0.0)
    ensures Follows(before, t, EntryOf(b, t))
  {
    if t.isBuyer {
      BuyFollows(b, t);
    } else {
      SaleFollows(b, t);
    }
  }

  lemma BuyFollows(b: Basis, t: Trade)
    requires t.isBuyer && t.qty > 0.0 && b.held >= 0.0 && (b.held == 0.0 ==> b.cost == 0.0)
    ensures Traded(b, t).held == b.held + t.qty && Realized(b, t) == 0.0
    ensures Average(Traded(b, t)) * (b.held + t.qty) == Average(b) * b.held + t.qty * t.price
  {
    if b.held > 0.0 {
      AverageTimesHeld(b);
    }
    AverageTimesHeld(Traded(b, t));
  }

  lemma SaleFollows(b: Basis, t: Trade)
    requires !t.isBuyer && t.qty > 0.0 && b.held >= 0.0 && (b.held == 0.0 ==> b.cost == 0.0)
    ensures var after, sold := Traded(b, t), if t.qty < b.held then t.qty else b.held;
            && after.held == b.held - sold && Realized(b, t) == sold * (t.price - Average(b))
            && Average(after) == if t.qty < b.held then Average(b) else 0.0
  {
    if t.qty < b.held {
      SellKeepsAverage(b, t);
    }
  }

  /** Every entry follows from the one before it. */
  lemma {:induction false} EntriesTellTheWalk(trades: seq<Trade>, i: nat)
    requires PositiveQuantities(trades) && i < |trades|
    ensures FollowsAt(Entries(trades), trades, i)
  {
    EntriesFollowPrefixes(trades, i);
    HeldIsNeverNegative(trades[..i]);
    if i > 0 {
      EntriesFollowPrefixes(trades, i - 1);
      WalkOneMore(trades, i - 1);
    }
    EntryFollows(BasisAfter(trades[..i]), trades[i], if i == 0 then None else Some(Entries(trades)[i - 1]));
  }

  lemma WalkIsTold(trades: seq<Trade>, sorted: seq<Trade>, steps: seq<Entry>)
    requires sorted == SortBy(trades, TimeOf) && steps == Entries(sorted)
    ensures multiset(sorted) == multiset(trades)
    ensures forall i, j :: 0 <= i < j < |steps| ==> steps[i].at <= steps[j].at
    ensures PositiveQuantities(trades) ==> forall i :: 0 <= i < |steps| ==> FollowsAt(steps, sorted, i)
  {
    SortBySorts(trades, TimeOf);
    forall i | 0 <= i < |steps| ensures steps[i].at == TimeOf(sorted[i]) {
      EntriesFollowPrefixes(sorted, i);
    }
    if PositiveQuantities(trades) {
      forall i | 0 <= i < |sorted| ensures sorted[i].qty > 0.0 {
        assert sorted[i] in multiset(trades);
      }
      forall i | 0 <= i < |steps| ensures FollowsAt(steps, sorted, i) {
        EntriesTellTheWalk(sorted, i);
      }
    }
  }

  // ---- What is held -----------------------------------------------------------------------------

  /** Bought minus sold, whatever was covered. */
  ghost function Tally(trades: seq<Trade>): real {
    if trades == [] then 0.0
    else
      var t := trades[|trades| - 1];
      Tally(trades[..|trades| - 1]) + if t.isBuyer then t.qty else -t.qty
  }

  /** The deepest the tally has been, never above where it began. */
  ghost function Lowest(trades: seq<Trade>): (low: real)
    ensures low <= Tally(trades) && low <= 0.0
  {
    if trades == [] then 0.0
    else
      var before := Lowest(trades[..|trades| - 1]);
      if Tally(trades) < before then Tally(trades) else before
  }

  /** On every list the walk holds what was bought minus sold since the tally was at its lowest: a sale of
      more than is held starts over from nothing. */
  lemma {:induction false} HeldIsTallyAboveItsLowest(trades: seq<Trade>)
    requires PositiveQuantities(trades)
    ensures BasisAfter(trades).held == Tally(trades) - Lowest(trades)
  {
    if trades != [] {
      HeldIsTallyAboveItsLowest(trades[..|trades| - 1]);
    }
  }

  lemma {:induction false} LowestIsZeroExactlyWithoutOversell(trades: seq<Trade>)
    ensures Lowest(trades) == 0.0 <==> forall k :: 0 <= k <= |trades| ==> Tally(trades[..k]) >= 0.0
  {
    assert trades[..|trades|] == trades;
    if trades != [] {
      var front := trades[..|trades| - 1];
      LowestIsZeroExactlyWithoutOversell(front);
      assert forall k :: 0 <= k <= |front| ==> trades[..k] == front[..k];
      if Lowest(trades) == 0.0 {
        forall k | 0 <= k <= |trades| ensures Tally(trades[..k]) >= 0.0 {
          if k <= |front| {
            assert Tally(front[..k]) >= 0.0;
          }
        }
      }
      if forall k :: 0 <= k <= |trades| ==> Tally(trades[..k]) >= 0.0 {
        forall k | 0 <= k <= |front| ensures Tally(front[..k]) >= 0.0 {
          assert Tally(trades[..k]) >= 0.0;
        }
        assert Tally(trades[..|trades|]) >= 0.0;
      }
    }
  }

  /** The walk holds what was bought minus what was sold, exactly if no prefix sold more than it bought. */
  lemma HeldIsTallyExactlyWithoutOversell(trades: seq<Trade>)
    requires PositiveQuantities(trades)
    ensures BasisAfter(trades).held == Tally(trades)
       <==> forall k :: 0 <= k <= |trades| ==> Tally(trades[..k]) >= 0.0
  {
    HeldIsTallyAboveItsLowest(trades);
    LowestIsZeroExactlyWithoutOversell(trades);
  }

  // ---- Conservation ---------------------------------------------------------------------------

  function TotalRealized(trades: seq<Trade>): real {
    if trades == [] then 0.0
    else var front := trades[..|trades| - 1]; TotalRealized(front) + Realized(BasisAfter(front), trades[|trades| - 1])
  }

  /** Money received for covered sales. */
  function TrackedProceeds(trades: seq<Trade>): real {
    if trades == [] then 0.0
    else
      var front, t := trades[..|trades| - 1], trades[|trades| - 1];
      TrackedProceeds(front) + t.price * Sold(BasisAfter(front), t)
  }

  /** Money paid for purchases. */
  function Spent(trades: seq<Trade>): real {
    if trades == [] then 0.0
    else var t := trades[|trades| - 1]; Spent(trades[..|trades| - 1]) + if t.isBuyer then t.qty * t.price else 0.0
  }

  /** No money appears or vanishes: what was realized is what came in, minus what
      was spent, plus what the remaining holding still cost. */
  lemma {:induction false} RealizedIsConserved(trades: seq<Trade>)
    ensures TotalRealized(trades) == TrackedProceeds(trades) - Spent(trades) + BasisAfter(trades).cost
  {
    if trades != [] {
      var front, t := trades[..|trades| - 1], trades[|trades| - 1];
      RealizedIsConserved(front);
      TradeConserves(BasisAfter(front), t);
    }
  }

  lemma TradeConserves(b: Basis, t: Trade)
    ensures Realized(b, t) == t.price * Sold(b, t) - (if t.isBuyer then t.qty * t.price else 0.0)
                              + Traded(b, t).cost - b.cost
  {
    assert Realized(b, t) == t.price * Sold(b, t) - Average(b) * Sold(b, t);
  }

  ghost predicate PositiveQuantities(trades: seq<Trade>) {
    forall i :: 0 <= i < |trades| ==> trades[i].qty > 0.0
  }

  lemma SellKeepsAverage(b: Basis, t: Trade)
    requires !t.isBuyer && Traded(b, t).held > 0.0
    ensures Average(Traded(b, t)) == Average(b)
  {
    var after := Traded(b, t);
    if b.held > 0.0 {
      var avg := b.cost / b.held;
      assert avg * b.held == b.cost;
      assert after.cost == avg * after.held;
      assert after.cost / after.held == avg;
    }
  }

  lemma FlatCostsNothing(b: Basis, t: Trade)
    requires t.qty > 0.0 && b.held >= 0.0 && (b.held == 0.0 ==> b.cost == 0.0)
    ensures Traded(b, t).held >= 0.0
    ensures Traded(b, t).held == 0.0 ==> Traded(b, t).cost == 0.0
  {
    if !t.isBuyer && b.held > 0.0 {
      assert b.cost / b.held * b.held == b.cost;
    }
  }

  /** After every prefix the holding is not negative, and a flat one has no cost left, oversells included. */
  lemma {:induction false} HeldIsNeverNegative(trades: seq<Trade>)
    requires PositiveQuantities(trades)
    ensures BasisAfter(trades).held >= 0.0
    ensures BasisAfter(trades).held == 0.0 ==> BasisAfter(trades).cost == 0.0
  {
    if trades != [] {
      HeldIsNeverNegative(trades[..|trades| - 1]);
      FlatCostsNothing(BasisAfter(trades[..|trades| - 1]), trades[|trades| - 1]);
    }
  }

  /** A purchase after which the position was never flat again. */
  ghost predicate LiveBuy(trades: seq<Trade>, i: nat) {
    && i < |trades| && trades[i].isBuyer
    && forall j :: i < j <= |trades| ==> BasisAfter(trades[..j]).held > 0.0
  }

  ghost predicate PricedWithin(trades: seq<Trade>, low: real, high: real) {
    forall i: nat :: LiveBuy(trades, i) ==> low <= trades[i].price <= high
  }

  lemma LiveBuysStayLive(trades: seq<Trade>, i: nat)
    requires trades != [] && BasisAfter(trades).held > 0.0 && LiveBuy(trades[..|trades| - 1], i)
    ensures LiveBuy(trades, i)
  {
    var front := trades[..|trades| - 1];
    forall j | i < j <= |trades| ensures BasisAfter(trades[..j]).held > 0.0 {
      if j <= |front| {
        assert front[..j] == trades[..j];
      } else {
        assert trades[..j] == trades;
      }
    }
  }

  /** The average lies between the cheapest and the dearest purchase since the position was last flat. */
  lemma {:induction false} AverageBetweenLivePrices(trades: seq<Trade>, low: real, high: real)
    requires PositiveQuantities(trades) && PricedWithin(trades, low, high) && BasisAfter(trades).held > 0.0
    ensures low <= Average(BasisAfter(trades)) <= high
  {
    var front, t := trades[..|trades| - 1], trades[|trades| - 1];
    var before, b := BasisAfter(front), BasisAfter(trades);
    HeldIsNeverNegative(front);
    if before.held > 0.0 {
      forall i: nat | LiveBuy(front, i) ensures low <= front[i].price <= high {
        LiveBuysStayLive(trades, i);
      }
      AverageBetweenLivePrices(front, low, high);
    }
    if t.isBuyer {
      assert trades[..|trades|] == trades;
      assert LiveBuy(trades, |front|);
      BuyStaysWithin(before, t, low, high);
    } else {
      SellKeepsAverage(before, t);
    }
  }

  lemma BuyStaysWithin(b: Basis, t: Trade, low: real, high: real)
    requires t.isBuyer && t.qty > 0.0 && low <= t.price <= high
    requires b.held > 0.0 || b == Basis(0.0, 0.0)
    requires b.held > 0.0 ==> low <= Average(b) <= high
    ensures low <= Average(Traded(b, t)) <= high
  {
    if b.held > 0.0 {
      QuotientBounds(b.cost, b.held, low, high);
    }
    BlendStaysWithin(b.held, b.cost, t.qty, t.price, low, high);
  }

  lemma BlendStaysWithin(held: real, cost: real, qty: real, price: real, low: real, high: real)
    requires held >= 0.0 && qty > 0.0 && low <= price <= high && low * held <= cost <= high * held
    ensures low <= (cost + qty * price) / (held + qty) <= high
  {
    var paid := qty * price;
    PaymentBounds(qty, price, paid, low, high);
    SumsStayWithin(held, cost, qty, paid, low, high);
    QuotientBounds(cost + paid, held + qty, low, high);
  }

  lemma PaymentBounds(qty: real, price: real, paid: real, low: real, high: real)
    requires qty > 0.0 && low <= price <= high && paid == qty * price
    ensures low * qty <= paid <= high * qty
  {
    ProductOrder(low, price, qty);
    ProductOrder(price, high, qty);
  }

  lemma SumsStayWithin(held: real, cost: real, qty: real, paid: real, low: real, high: real)
    requires low * held <= cost <= high * held && low * qty <= paid <= high * qty
    ensures low * (held + qty) <= cost + paid <= high * (held + qty)
  {
  }

  lemma QuotientBounds(cost: real, held: real, low: real, high: real)
    requires held > 0.0
    ensures low <= cost / held <= high <==> low * held <= cost <= high * held
  {
    var q := cost / held;
    assert q * held == cost;
    ProductOrder(low, q, held);
    ProductOrder(q, high, held);
  }

  lemma ProductOrder(a: real, b: real, k: real)
    requires k > 0.0
    ensures a <= b <==> a * k <= b * k
  {
    if a <= b {
      assert (b - a) * k >= 0.0;
    } else {
      assert (a - b) * k > 0.0;
    }
  }

  // ---- Realized loss of a day -----------------------------------------------------------------------

  function RealizedSince(entries: seq<Entry>, start: int): real {
    if entries == [] then 0.0
    else
      var last := entries[|entries| - 1];
      RealizedSince(entries[..|entries| - 1], start) + if last.at >= start then last.realized else 0.0
  }

  function TradesOf(answer: Answer<seq<Trade>>): seq<Trade> { if answer.Ok? then answer.value else [] }

  /** Over all assets but the quote asset; a history the exchange refuses counts as empty. */
  function RealizedOver(assets: seq<string>, quote: string, fetch: string -> Answer<seq<Trade>>, start: int): real {
    if assets == [] then 0.0
    else
      var asset := assets[|assets| - 1];
      RealizedOver(assets[..|assets| - 1], quote, fetch, start)
      + if asset == quote then 0.0 else AssetRealized(TradesOf(fetch(asset)), start)
  }

  function AssetRealized(trades: seq<Trade>, start: int): real {
    RealizedSince(Entries(SortBy(trades, TimeOf)), start)
  }

  /** The histories are fetched in order; the first exception that is not the exchange's own propagates. */
  method GetRealizedLossTodayQuote(
    assets: seq<string>, quote: string, fetch: string -> Answer<seq<Trade>>, todayStart: int) returns (r: Option<real>)
    ensures r.None? <==> exists i :: 0 <= i < |assets| && assets[i] != quote && fetch(assets[i]).OtherFailure?
    ensures r.Some? ==> r.value >= 0.0
    ensures r.Some? && RealizedOver(assets, quote, fetch, todayStart) < 0.0 ==>
              r.value == -RealizedOver(assets, quote, fetch, todayStart)
    ensures r.Some? && RealizedOver(assets, quote, fetch, todayStart) >= 0.0 ==> r.value == 0.0
  {
    var totalRealized := 0.0;
    for i := 0 to |assets|
      invariant totalRealized == RealizedOver(assets[..i], quote, fetch, todayStart)
      invariant forall j :: 0 <= j < i && assets[j] != quote ==> !fetch(assets[j]).OtherFailure?
    {
      OverOneMore(assets, i, quote, fetch, todayStart);
      if assets[i] != quote {
        var answer := fetch(assets[i]);
        if answer.OtherFailure? {
          return None;
        }
        totalRealized := AddRealizedSince(totalRealized, TradesOf(answer), todayStart);
      }
    }
    assert assets[..|assets|] == assets;
    return Some(if totalRealized < 0.0 then -totalRealized else 0.0);
  }

  /** The inner loop over one asset's entries. */
  method AddRealizedSince(before: real, trades: seq<Trade>, todayStart: int) returns (totalRealized: real)
    ensures totalRealized == before + AssetRealized(trades, todayStart)
  {
    var steps := CostBasisWalk(trades);
    totalRealized := before;
    for k := 0 to |steps|
      invariant totalRealized == before + RealizedSince(steps[..k], todayStart)
    {
      SinceOneMore(steps, k, todayStart);
      if steps[k].at >= todayStart {
        totalRealized := totalRealized + steps[k].realized;
      }
    }
    assert steps[..|steps|] == steps;
  }

  lemma SinceOneMore(entries: seq<Entry>, k: nat, start: int)
    requires k < |entries|
    ensures RealizedSince(entries[..k + 1], start)
         == RealizedSince(entries[..k], start) + if entries[k].at >= start then entries[k].realized else 0.0
  {
    assert entries[..k + 1][..k] == entries[..k];
  }

  lemma OverOneMore(assets: seq<string>, i: nat, quote: string, fetch: string -> Answer<seq<Trade>>, start: int)
    requires i < |assets|
    ensures RealizedOver(assets[..i + 1], quote, fetch, start)
         == RealizedOver(assets[..i], quote, fetch, start)
            + if assets[i] == quote then 0.0 else AssetRealized(TradesOf(fetch(assets[i])), start)
  {
    assert assets[..i + 1][..i] == assets[..i];
  }

  /** The day's sum asset by asset: the quote asset and a refused history add nothing, any other asset what
      its entries of the day realized. */
  lemma {:induction false} RealizedOverAddsUp(assets: seq<string>, more: seq<string>, asset: string, quote: string,
                                              fetch: string -> Answer<seq<Trade>>, start: int)
    ensures RealizedOver(assets + more, quote, fetch, start)
         == RealizedOver(assets, quote, fetch, start) + RealizedOver(more, quote, fetch, start)
    ensures RealizedOver([asset], quote, fetch, start)
         == match fetch(asset)
            case Ok(trades) => if asset == quote then 0.0 else AssetRealized(trades, start)
            case _ => 0.0
  {
    assert [asset][..0] == [];
    if more == [] {
      assert assets + more == assets;
    } else {
      var n := |more| - 1;
      assert (assets + more)[..|assets + more| - 1] == assets + more[..n];
      RealizedOverAddsUp(assets, more[..n], asset, quote, fetch, start);
    }
  }

  lemma {:induction false} RealizedSinceAddsUp(entries: seq<Entry>, more: seq<Entry>, e: Entry, start: int)
    ensures RealizedSince(entries + more, start) == RealizedSince(entries, start) + RealizedSince(more, start)
    ensures RealizedSince([e], start) == if e.at < start then 0.0 else e.realized
  {
    assert [e][..0] == [];
    if more == [] {
      assert entries + more == entries;
    } else {
      var n := |more| - 1;
      assert (entries + more)[..|entries + more| - 1] == entries + more[..n];
      RealizedSinceAddsUp(entries, more[..n], e, start);
    }
  }

  // ---- Agreement with round-trip pairing ---------------------------------------------------------------

  /** The exchange's record of a fill. */
  function AsTrade(fill: Fill): Trade { Trade(Some(fill.at), fill.side == BUY, fill.quantity, fill.price) }

  function AsTrades(fills: seq<Fill>): (r: seq<Trade>)
    ensures |r| == |fills|
  {
    if fills == [] then [] else AsTrades(fills[..|fills| - 1]) + [AsTrade(fills[|fills| - 1])]
  }

  ghost predicate WithoutFees(fills: seq<Fill>) {
    forall i :: 0 <= i < |fills| ==> fills[i].fee == 0.0
  }

  lemma InsertCommutes(fills: seq<Fill>, fill: Fill)
    ensures AsTrades(Insert(fills, fill, Time)) == Insert(AsTrades(fills), AsTrade(fill), TimeOf)
    decreases |fills|
  {
    if fills != [] {
      var front, last := fills[..|fills| - 1], fills[|fills| - 1];
      InsertCommutes(front, fill);
      var inserted := Insert(front, fill, Time);
      assert (inserted + [last])[..|inserted|] == inserted;
      assert (fills + [fill])[..|fills|] == fills;
      assert AsTrades(fills)[..|fills| - 1] == AsTrades(front);
    }
  }

  lemma {:induction false} SortCommutes(fills: seq<Fill>)
    ensures AsTrades(ByTime(fills)) == SortBy(AsTrades(fills), TimeOf)
  {
    if fills != [] {
      SortCommutes(fills[..|fills| - 1]);
      InsertCommutes(SortBy(fills[..|fills| - 1], Time), fills[|fills| - 1]);
    }
  }

  /** What both walks hold after alternating fills: the same open purchase. */
  ghost predicate InStep(w: Walk, b: Basis, e: Exposure) {
    match e
    case Flat => w.open.None? && b == Basis(0.0, 0.0)
    case Long(q) => w.open.Some? && q > 0.0 && w.open.value.quantity == q && w.open.value.fee == 0.0
                    && b == Basis(q, w.open.value.price * q)
    case Broken => false
  }

  lemma WalksStayInStep(w: Walk, b: Basis, e: Exposure, fill: Fill, scope: Scope)
    requires InStep(w, b, e) && fill.fee == 0.0
    requires !Alternation.After(e, Leg(fill.side, fill.quantity)).Broken?
    ensures InStep(Advance(w, fill, scope), Traded(b, AsTrade(fill)),
                   Alternation.After(e, Leg(fill.side, fill.quantity)))
    ensures Advance(w, fill, scope).realized - w.realized
         == if Counts(scope, fill.at) then Realized(b, AsTrade(fill)) else 0.0
  {
    if fill.side == SELL {
      var buy := w.open.value;
      QuotientBounds(b.cost, b.held, buy.price, buy.price);
      assert Average(b) == buy.price;
    }
  }

  lemma {:induction false} WalksAgree(fills: seq<Fill>, start: int)
    requires WithoutFees(fills) && !ExposureOf(Legs(fills)).Broken?
    ensures InStep(Pair(fills, Since(start)), BasisAfter(AsTrades(fills)), ExposureOf(Legs(fills)))
    ensures Pair(fills, Since(start)).realized == RealizedSince(Entries(AsTrades(fills)), start)
  {
    if fills != [] {
      var front, last := fills[..|fills| - 1], fills[|fills| - 1];
      assert fills == front + [last];
      LegsSnoc(front, last);
      ExposureSnoc(Legs(front), Leg(last.side, last.quantity));
      WalksAgree(front, start);
      WalksStayInStep(Pair(front, Since(start)), BasisAfter(AsTrades(front)), ExposureOf(Legs(front)), last,
                      Since(start));
      var trades := AsTrades(fills);
      assert trades[..|trades| - 1] == AsTrades(front);
      assert Entries(trades)[..|trades| - 1] == Entries(AsTrades(front));
    }
  }

  /** On full-size alternating fills, in whatever order the rows come, the pairing
      walk and the weighted-average walk report the same realized P&L for every cutoff. */
  lemma PairingEqualsCostBasis(fills: seq<Fill>, start: int)
    requires WithoutFees(fills) && !ExposureOf(Legs(ByTime(fills))).Broken?
    ensures Pair(ByTime(fills), Since(start)).realized
         == AssetRealized(AsTrades(fills), start)
  {
    SortCommutes(fills);
    SortBySorts(fills, Time);
    forall i | 0 <= i < |fills| ensures ByTime(fills)[i].fee == 0.0 {
      assert ByTime(fills)[i] in multiset(fills);
    }
    WalksAgree(ByTime(fills), start);
  }
}
