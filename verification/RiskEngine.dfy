/** The last gate before an order: a pure function of limits, request and account. */
module RiskEngine {
  import opened Common

  /** One user's limits; None means "not configured". */
  datatype RiskLimits = RiskLimits(
    maxOrderNotional: Option<real>, maxSymbolExposurePct: Option<real>, maxTotalExposurePct: Option<real>,
    maxDailyLossPct: Option<real>, maxOpenPositions: Option<int>, allowedSymbols: Option<set<string>>)

  datatype RiskRequest = RiskRequest(symbol: string, side: Side, notional: real, newSymbol: bool)

  datatype RiskSnapshot = RiskSnapshot(
    totalValue: real, symbolExposure: real, totalExposure: real, openPositions: int, lossToday: real)

  datatype RiskRefusal =
    | NotConfigured | SymbolNotAllowed | NoPortfolioValue | DailyLoss | OrderNotional
    | SymbolExposure | TotalExposure | OpenPositions

  datatype RiskDecision = Approved | Refused(reason: RiskRefusal)

  function ValidateOrder(limits: RiskLimits, request: RiskRequest, snapshot: RiskSnapshot): RiskDecision {
    var symbol := CheckAllowedSymbol(limits, request);
    if symbol.Refused? then symbol else
    var loss := CheckDailyLoss(limits, snapshot);
    if loss.Refused? then loss else
    var notional := CheckOrderNotional(limits, request);
    if notional.Refused? then notional
    else if request.side == BUY then
      var exposure := CheckExposure(limits.maxSymbolExposurePct, snapshot.symbolExposure, request, snapshot,
                                    SymbolExposure);
      if exposure.Refused? then exposure else
      var total := CheckExposure(limits.maxTotalExposurePct, snapshot.totalExposure, request, snapshot, TotalExposure);
      if total.Refused? then total else CheckOpenPositions(limits, request, snapshot)
    else Approved
  }

  function CheckAllowedSymbol(limits: RiskLimits, request: RiskRequest): RiskDecision {
    if limits.allowedSymbols.None? || limits.allowedSymbols.value == {} then Refused(NotConfigured)
    else if request.symbol !in limits.allowedSymbols.value then Refused(SymbolNotAllowed)
    else Approved
  }

  function CheckDailyLoss(limits: RiskLimits, snapshot: RiskSnapshot): RiskDecision {
    if limits.maxDailyLossPct.None? then Refused(NotConfigured)
    else if snapshot.totalValue <= 0.0 then Refused(NoPortfolioValue)
    else if snapshot.lossToday / snapshot.totalValue * 100.0 >= limits.maxDailyLossPct.value then Refused(DailyLoss)
    else Approved
  }

  function CheckOrderNotional(limits: RiskLimits, request: RiskRequest): RiskDecision {
    if limits.maxOrderNotional.None? then Refused(NotConfigured)
    else if request.notional > limits.maxOrderNotional.value then Refused(OrderNotional)
    else Approved
  }

  /** The symbol and the total exposure check differ only in the limit and the current exposure. */
  function CheckExposure(limit: Option<real>, current: real, request: RiskRequest, snapshot: RiskSnapshot,
                         reason: RiskRefusal): RiskDecision {
    if limit.None? then Refused(NotConfigured)
    else if snapshot.totalValue <= 0.0 then Refused(NoPortfolioValue)
    else if (current + request.notional) / snapshot.totalValue * 100.0 > limit.value then Refused(reason)
    else Approved
  }

  function CheckOpenPositions(limits: RiskLimits, request: RiskRequest, snapshot: RiskSnapshot): RiskDecision {
    if limits.maxOpenPositions.None? then Refused(NotConfigured)
    else if request.newSymbol && snapshot.openPositions >= limits.maxOpenPositions.value then Refused(OpenPositions)
    else Approved
  }

  // ---- Fail-closed ------------------------------------------------------------

  predicate FullyConfigured(l: RiskLimits) {
    && l.maxOrderNotional.Some? && l.maxSymbolExposurePct.Some? && l.maxTotalExposurePct.Some?
    && l.maxDailyLossPct.Some? && l.maxOpenPositions.Some? && l.allowedSymbols.Some?
  }

  /** What an approval guarantees about the account, free of percentages:
      cross-multiplied bounds that hold after the order's notional is added. */
  ghost predicate WithinLimits(l: RiskLimits, r: RiskRequest, s: RiskSnapshot) {
    && l.allowedSymbols.Some? && r.symbol in l.allowedSymbols.value
    && l.maxDailyLossPct.Some? && s.totalValue > 0.0
    && s.lossToday * 100.0 < l.maxDailyLossPct.value * s.totalValue
    && l.maxOrderNotional.Some? && r.notional <= l.maxOrderNotional.value
    && (r.side == BUY ==>
          && l.maxSymbolExposurePct.Some?
          && (s.symbolExposure + r.notional) * 100.0 <= l.maxSymbolExposurePct.value * s.totalValue
          && l.maxTotalExposurePct.Some?
          && (s.totalExposure + r.notional) * 100.0 <= l.maxTotalExposurePct.value * s.totalValue
          && l.maxOpenPositions.Some?
          && (r.newSymbol ==> s.openPositions < l.maxOpenPositions.value))
  }

  lemma PercentageBound(part: real, whole: real, limit: real)
    requires whole > 0.0
    ensures part / whole * 100.0 <= limit <==> part * 100.0 <= limit * whole
    ensures part / whole * 100.0 < limit <==> part * 100.0 < limit * whole
  {
    var q := part / whole;
    assert q * whole == part;
    assert part * 100.0 == (q * 100.0) * whole;
    if q * 100.0 <= limit {
      ScaleMonotone(q * 100.0, limit, whole);
    }
    if q * 100.0 >= limit {
      ScaleMonotone(limit, q * 100.0, whole);
    }
    if q * 100.0 != limit {
      assert (q * 100.0 - limit) * whole != 0.0;
    }
  }

  lemma ScaleMonotone(a: real, b: real, k: real)
    requires a <= b && k >= 0.0
    ensures a * k <= b * k
  {
    assert (b - a) * k >= 0.0;
  }

  lemma ApprovedExactlyWithinLimits(l: RiskLimits, r: RiskRequest, s: RiskSnapshot)
    ensures ValidateOrder(l, r, s).Approved? <==> WithinLimits(l, r, s)
  {
    if s.totalValue > 0.0 {
      if l.maxDailyLossPct.Some? {
        PercentageBound(s.lossToday, s.totalValue, l.maxDailyLossPct.value);
      }
      if l.maxSymbolExposurePct.Some? {
        PercentageBound(s.symbolExposure + r.notional, s.totalValue, l.maxSymbolExposurePct.value);
      }
      if l.maxTotalExposurePct.Some? {
        PercentageBound(s.totalExposure + r.notional, s.totalValue, l.maxTotalExposurePct.value);
      }
    }
  }

  /** Any unset limit stops every BUY, however safe it is. */
  lemma AnyUnsetLimitStopsEveryBuy(l: RiskLimits, r: RiskRequest, s: RiskSnapshot)
    requires r.side == BUY && !FullyConfigured(l)
    ensures ValidateOrder(l, r, s).Refused?
  {
    ApprovedExactlyWithinLimits(l, r, s);
  }

  // ---- Monotonicity -------------------------------------------------------------

  /** `b` is at least as permissive as `a`. A limit that is unset is the tightest one. */
  ghost predicate Looser(a: RiskLimits, b: RiskLimits) {
    && AtMost(a.maxOrderNotional, b.maxOrderNotional)
    && AtMost(a.maxSymbolExposurePct, b.maxSymbolExposurePct)
    && AtMost(a.maxTotalExposurePct, b.maxTotalExposurePct)
    && AtMost(a.maxDailyLossPct, b.maxDailyLossPct)
    && (a.maxOpenPositions.Some? ==> b.maxOpenPositions.Some? && a.maxOpenPositions.value <= b.maxOpenPositions.value)
    && (a.allowedSymbols.Some? ==> b.allowedSymbols.Some? && a.allowedSymbols.value <= b.allowedSymbols.value)
  }

  ghost predicate AtMost(a: Option<real>, b: Option<real>) {
    a.Some? ==> b.Some? && a.value <= b.value
  }

  lemma LooseningKeepsApprovals(a: RiskLimits, b: RiskLimits, r: RiskRequest, s: RiskSnapshot)
    requires Looser(a, b)
    ensures ValidateOrder(a, r, s).Approved? ==> ValidateOrder(b, r, s).Approved?
  {
    ApprovedExactlyWithinLimits(a, r, s);
    ApprovedExactlyWithinLimits(b, r, s);
    if WithinLimits(a, r, s) {
      ScaleMonotone(a.maxDailyLossPct.value, b.maxDailyLossPct.value, s.totalValue);
      if r.side == BUY {
        ScaleMonotone(a.maxSymbolExposurePct.value, b.maxSymbolExposurePct.value, s.totalValue);
        ScaleMonotone(a.maxTotalExposurePct.value, b.maxTotalExposurePct.value, s.totalValue);
      }
    }
  }
}
