/** Round-trip pairing: every SELL is matched with the BUY fill that is open when it comes. */
module RoundTrips {
  import opened Common
  import opened Alternation
  import opened Sorting

  /** A full fill. Live fills carry no fee. */
  datatype Fill = Fill(side: Side, price: real, quantity: real, fee: real, at: int)

  /** Which closing times a sum counts. */
  datatype Scope = All | Since(start: int) | Before(end: int)

  predicate Counts(scope: Scope, at: int) {
    match scope
    case All => true
    case Since(start) => at >= start
    case Before(end) => at < end
  }

  function BuyCost(buy: Fill): real { buy.price * buy.quantity + buy.fee }

  function SellProceeds(sell: Fill): real { sell.price * sell.quantity - sell.fee }

  function TripPnl(buy: Fill, sell: Fill): real { SellProceeds(sell) - BuyCost(buy) }

  /** The loop state of the pairing walk. */
  datatype Walk = Walk(open: Option<Fill>, realized: real, trips: nat, wins: nat)

  function Advance(w: Walk, fill: Fill, scope: Scope): Walk {
    if fill.side == BUY then w.(open := Some(fill))
    else if w.open.Some? then
      var pnl := TripPnl(w.open.value, fill);
      Walk(None, if Counts(scope, fill.at) then w.realized + pnl else w.realized,
           w.trips + 1, if pnl > 0.0 then w.wins + 1 else w.wins)
    else w
  }

  function Pair(fills: seq<Fill>, scope: Scope): Walk {
    if fills == [] then Walk(None, 0.0, 0, 0)
    else Advance(Pair(fills[..|fills| - 1], scope), fills[|fills| - 1], scope)
  }

  function Time(fill: Fill): int { fill.at }

  function ByTime(fills: seq<Fill>): seq<Fill> { SortBy(fills, Time) }

  // ---- An independent reading: a trip is a BUY directly followed by a SELL --------

  ghost predicate ClosesAt(fills: seq<Fill>, i: int) {
    1 <= i < |fills| && fills[i - 1].side == BUY && fills[i].side == SELL
  }

  /** Sum over the closing positions below `n`, by index and without any open BUY. */
  ghost function AdjacentPnl(fills: seq<Fill>, n: nat, scope: Scope): real
    requires n <= |fills|
  {
    if n == 0 then 0.0 else AdjacentPnl(fills, n - 1, scope) + PnlAt(fills, n - 1, scope)
  }

  ghost function PnlAt(fills: seq<Fill>, i: nat, scope: Scope): real
    requires i < |fills|
  {
    if ClosesAt(fills, i)
       && (scope.Since? ==> scope.start <= fills[i].at) && (scope.Before? ==> fills[i].at < scope.end) then
      fills[i].price * fills[i].quantity - fills[i].fee
      - (fills[i - 1].price * fills[i - 1].quantity + fills[i - 1].fee)
    else 0.0
  }

  ghost function ClosedTrips(fills: seq<Fill>): set<int> {
    set i | 1 <= i < |fills| && ClosesAt(fills, i)
  }

  ghost function WinningTrips(fills: seq<Fill>): set<int> {
    set i | 1 <= i < |fills| && ClosesAt(fills, i) && SellProceeds(fills[i]) > BuyCost(fills[i - 1])
  }

  lemma {:induction false} AdjacentPnlOfPrefix(fills: seq<Fill>, n: nat, scope: Scope)
    requires n < |fills|
    ensures AdjacentPnl(fills, n, scope) == AdjacentPnl(fills[..|fills| - 1], n, scope)
  {
    if n > 0 {
      AdjacentPnlOfPrefix(fills, n - 1, scope);
    }
  }

  lemma {:induction false} WalkHoldsLastBuy(fills: seq<Fill>, scope: Scope)
    ensures Pair(fills, scope).open == if fills != [] && fills[|fills| - 1].side == BUY
                                       then Some(fills[|fills| - 1]) else None
  {
    if fills != [] {
      WalkHoldsLastBuy(fills[..|fills| - 1], scope);
    }
  }

  /** The walk keeps one open BUY; what it computes is the sum over adjacent BUY-SELL pairs. */
  lemma {:induction false} WalkPairsNeighbours(fills: seq<Fill>, scope: Scope)
    ensures Pair(fills, scope).realized == AdjacentPnl(fills, |fills|, scope)
  {
    if fills != [] {
      var n := |fills| - 1;
      WalkPairsNeighbours(fills[..n], scope);
      WalkHoldsLastBuy(fills[..n], scope);
      AdjacentPnlOfPrefix(fills, n, scope);
    }
  }

  /** The last position closes a trip, or the trips are those of the prefix. */
  lemma TripsGrowAtTheEnd(fills: seq<Fill>)
    requires fills != []
    ensures var n := |fills| - 1;
            && ClosedTrips(fills) == ClosedTrips(fills[..n]) + (if ClosesAt(fills, n) then {n} else {})
            && n !in ClosedTrips(fills[..n]) && WinningTrips(fills[..n]) <= ClosedTrips(fills[..n])
            && WinningTrips(fills) == WinningTrips(fills[..n])
                 + (if ClosesAt(fills, n) && SellProceeds(fills[n]) > BuyCost(fills[n - 1]) then {n} else {})
  {
    var n := |fills| - 1;
    assert forall i :: 1 <= i < n ==> ClosesAt(fills, i) == ClosesAt(fills[..n], i);
  }

  /** The counters count exactly the adjacent BUY-SELL pairs and the winning ones among them. */
  lemma {:induction false} CountersCountTrips(fills: seq<Fill>, scope: Scope)
    ensures Pair(fills, scope).trips == |ClosedTrips(fills)|
    ensures Pair(fills, scope).wins == |WinningTrips(fills)|
  {
    if fills != [] {
      var front := fills[..|fills| - 1];
      CountersCountTrips(front, scope);
      WalkHoldsLastBuy(front, scope);
      TripsGrowAtTheEnd(fills);
    }
  }

  // ---- Splitting by day ------------------------------------------------------------

  lemma {:induction false} TodayPlusEarlierIsTotal(fills: seq<Fill>, start: int)
    ensures Pair(fills, Since(start)).realized + Pair(fills, Before(start)).realized == Pair(fills, All).realized
    ensures Pair(fills, Since(start)).open == Pair(fills, Before(start)).open == Pair(fills, All).open
  {
    if fills != [] {
      TodayPlusEarlierIsTotal(fills[..|fills| - 1], start);
    }
  }

  // ---- Telescoping to cash -----------------------------------------------------------

  /** What one fill does to the cash of the account that made it. */
  function CashFlow(fill: Fill): real {
    if fill.side == BUY then -BuyCost(fill) else SellProceeds(fill)
  }

  function CashFlows(fills: seq<Fill>): real {
    if fills == [] then 0.0 else CashFlows(fills[..|fills| - 1]) + CashFlow(fills[|fills| - 1])
  }

  function OpenCost(w: Walk): real {
    if w.open.Some? then BuyCost(w.open.value) else 0.0
  }

  function Legs(fills: seq<Fill>): (r: seq<Leg>)
    ensures |r| == |fills|
    ensures forall i :: 0 <= i < |fills| ==> r[i] == Leg(fills[i].side, fills[i].quantity)
  {
    if fills == [] then [] else Legs(fills[..|fills| - 1]) + [Leg(fills[|fills| - 1].side, fills[|fills| - 1].quantity)]
  }

  lemma LegsSnoc(fills: seq<Fill>, fill: Fill)
    ensures Legs(fills + [fill]) == Legs(fills) + [Leg(fill.side, fill.quantity)]
    ensures CashFlows(fills + [fill]) == CashFlows(fills) + CashFlow(fill)
    ensures forall scope :: Pair(fills + [fill], scope) == Advance(Pair(fills, scope), fill, scope)
  {
    assert (fills + [fill])[..|fills|] == fills;
  }

  /** On alternating fills, realized P&L is the cash they moved plus the cost still tied up in the open BUY. */
  lemma {:induction false} PnlTelescopesToCash(fills: seq<Fill>)
    requires !ExposureOf(Legs(fills)).Broken?
    ensures CashFlows(fills) == Pair(fills, All).realized - OpenCost(Pair(fills, All))
    ensures Pair(fills, All).open.Some? <==> ExposureOf(Legs(fills)).Long?
  {
    if fills != [] {
      var front, last := fills[..|fills| - 1], fills[|fills| - 1];
      assert fills == front + [last];
      LegsSnoc(front, last);
      ExposureSnoc(Legs(front), Leg(last.side, last.quantity));
      PnlTelescopesToCash(front);
    }
  }
}
