/** The exchange's trading rules for one symbol. */
module OrderValidator {
  import opened Common

  datatype Request = Request(side: string, orderType: string, quantity: real, price: Option<real>)

  datatype SymbolFilters = SymbolFilters(
    tradable: bool, minQty: real, maxQty: real, stepSize: real,
    minPrice: real, maxPrice: real, tickSize: real, minNotional: real)

  datatype Refusal =
    | InvalidSide | InvalidType | NonPositiveQuantity | MarketWithPrice | LimitWithoutPrice | NotTradable
    | QuantityOutOfRange | OffStep | PriceOutOfRange | OffTick | BelowMinNotional

  datatype Validation = Approved(notional: real) | Refused(reason: Refusal)

  /** `distance % size == 0` for an exact decimal. */
  predicate OnLattice(distance: real, size: real)
    requires size > 0.0
  {
    (distance / size).Floor as real == distance / size
  }

  function Validate(request: Request, marketPrice: real, filters: SymbolFilters): Validation {
    if request.side !in {"BUY", "SELL"} then Refused(InvalidSide)
    else if request.orderType !in {"MARKET", "LIMIT"} then Refused(InvalidType)
    else if request.quantity <= 0.0 then Refused(NonPositiveQuantity)
    else if request.orderType == "MARKET" && request.price.Some? then Refused(MarketWithPrice)
    else if request.orderType == "LIMIT" && (request.price.None? || request.price.value <= 0.0) then
      Refused(LimitWithoutPrice)
    else if !filters.tradable then Refused(NotTradable)
    else if !(filters.minQty <= request.quantity <= filters.maxQty) then Refused(QuantityOutOfRange)
    else if filters.stepSize > 0.0 && !OnLattice(request.quantity - filters.minQty, filters.stepSize) then
      Refused(OffStep)
    else if request.orderType == "LIMIT" && !(filters.minPrice <= request.price.value <= filters.maxPrice) then
      Refused(PriceOutOfRange)
    else if request.orderType == "LIMIT" && filters.tickSize > 0.0
         && !OnLattice(request.price.value - filters.minPrice, filters.tickSize) then
      Refused(OffTick)
    else
      var notional := request.quantity * EffectivePrice(request, marketPrice);
      if notional < filters.minNotional then Refused(BelowMinNotional) else Approved(notional)
  }

  function EffectivePrice(request: Request, marketPrice: real): real {
    if request.orderType == "LIMIT" && request.price.Some? then request.price.value else marketPrice
  }

  /** `value` is reached from `base` in whole steps of `size`, up or down. */
  ghost predicate Reachable(value: real, base: real, size: real) {
    exists k: int :: Steps(base, size, k) == value
  }

  ghost function Steps(base: real, size: real, k: int): real {
    base + (k as real) * size
  }

  lemma LatticeMeansWholeSteps(value: real, base: real, size: real)
    requires size > 0.0
    ensures OnLattice(value - base, size) <==> Reachable(value, base, size)
  {
    var ratio := (value - base) / size;
    assert ratio * size == value - base;
    if OnLattice(value - base, size) {
      assert Steps(base, size, ratio.Floor) == value;
    }
    if Reachable(value, base, size) {
      var k: int :| Steps(base, size, k) == value;
      assert (k as real) * size == ratio * size;
      WholeRatio(k as real, ratio, size);
      assert ratio.Floor == k;
    }
  }

  lemma WholeRatio(a: real, b: real, size: real)
    requires size > 0.0 && a * size == b * size
    ensures a == b
  {
    assert (a - b) * size == 0.0;
  }

  /** A LIMIT order is worth its own price, any other the market's. */
  ghost function Notional(r: Request, marketPrice: real): real {
    r.quantity * match r.price
                 case Some(limit) => if r.orderType == "LIMIT" then limit else marketPrice
                 case None => marketPrice
  }

  /** Everything an approval says about the order, and nothing less suffices. */
  ghost predicate MeetsRules(r: Request, marketPrice: real, f: SymbolFilters) {
    && r.side in {"BUY", "SELL"}
    && (|| (r.orderType == "MARKET" && r.price.None?)
        || (&& r.orderType == "LIMIT" && r.price.Some? && r.price.value > 0.0
            && f.minPrice <= r.price.value <= f.maxPrice
            && (f.tickSize > 0.0 ==> Reachable(r.price.value, f.minPrice, f.tickSize))))
    && r.quantity > 0.0
    && f.tradable
    && f.minQty <= r.quantity <= f.maxQty
    && (f.stepSize > 0.0 ==> Reachable(r.quantity, f.minQty, f.stepSize))
    && Notional(r, marketPrice) >= f.minNotional
  }

  lemma ApprovedExactlyWhenRulesHold(r: Request, marketPrice: real, f: SymbolFilters)
    ensures Validate(r, marketPrice, f).Approved? <==> MeetsRules(r, marketPrice, f)
    ensures Validate(r, marketPrice, f).Approved? ==>
              Validate(r, marketPrice, f).notional == Notional(r, marketPrice)
  {
    if f.stepSize > 0.0 {
      LatticeMeansWholeSteps(r.quantity, f.minQty, f.stepSize);
    }
    if f.tickSize > 0.0 && r.price.Some? {
      LatticeMeansWholeSteps(r.price.value, f.minPrice, f.tickSize);
    }
  }
}
