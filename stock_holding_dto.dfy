/**
 * The holding view sent to the client, and the constraints on a holding request
 * body (quantity and purchase price must be present and positive).
 */
module HoldingDtos {
  import opened Wrappers
  import opened Rounding
  import opened Entities
  import opened Holdings

  datatype StockHoldingDto = StockHoldingDto(
    id: nat,
    symbol: string,
    name: string,
    quantity: real,
    purchasePrice: real,
    currentPrice: real,
    currentValue: real,
    profitLoss: real,
    profitLossPercentage: real,
    currency: string)

  /** A holding request body as received; absent JSON fields are None. */
  datatype HoldingRequest = HoldingRequest(symbol: Option<string>, quantity: Option<real>, purchasePrice: Option<real>)

  /**
   * Bean validation of a request body (`@NotNull @Positive` on quantity and
   * purchase price): the accepted pair, or the rejection the controller's
   * `@Valid` turns into a bad request.
   */
  function CheckRequest(req: HoldingRequest): (r: Result<(real, real)>)
    ensures r.Success? <==> req.quantity.Some? && req.quantity.value > 0.0
                            && req.purchasePrice.Some? && req.purchasePrice.value > 0.0
    ensures r.Success? ==> r.value == (req.quantity.value, req.purchasePrice.value)
  {
    match (req.quantity, req.purchasePrice)
    case (Some(q), Some(p)) =>
      if q > 0.0 && p > 0.0 then Success((q, p)) else Failure(InvalidRequest("must be greater than 0"))
    case _ => Failure(InvalidRequest("must not be null"))
  }

  /**
   * `new StockHoldingDto(holding)`. Reading the profit/loss percentage divides by
   * the cost basis, so a zero cost basis makes the mapping throw.
   */
  function FromHolding(p: Position): (r: Result<StockHoldingDto>)
    ensures r.Success? <==> CostBasis(p) != 0.0
    ensures r.Failure? ==> r.error == DivisionByZero
    ensures r.Success? ==> (
      && r.value.id == p.holding.id && r.value.symbol == p.stock.symbol && r.value.name == p.stock.name
      && r.value.quantity == p.holding.quantity && r.value.purchasePrice == p.holding.averagePurchasePrice
      && r.value.currentPrice == p.stock.currentPrice
      && r.value.currentValue == CurrentValue(p) && r.value.profitLoss == ProfitLoss(p)
      && r.value.profitLossPercentage == ProfitLossPercentage(p)
      && r.value.currency == "USD")
  {
    if CostBasis(p) == 0.0 then Failure(DivisionByZero)
    else
      Success(StockHoldingDto(
        p.holding.id, p.stock.symbol, p.stock.name, p.holding.quantity, p.holding.averagePurchasePrice,
        p.stock.currentPrice, CurrentValue(p), ProfitLoss(p), ProfitLossPercentage(p), "USD"))
  }

  /**
   * The figures of a mapped holding agree with each other: value is price times
   * quantity, profit/loss is value minus purchase price times quantity, and the
   * percentage is the price gap relative to the purchase price, whatever the
   * quantity.
   */
  lemma FromHoldingConsistent(p: Position)
    requires FromHolding(p).Success?
    ensures var d := FromHolding(p).value;
      && d.currentValue == d.currentPrice * d.quantity
      && d.profitLoss == d.currentValue - d.purchasePrice * d.quantity
      && d.purchasePrice != 0.0
      && d.profitLossPercentage == PercentOf(d.currentPrice - d.purchasePrice, d.purchasePrice)
  {
    ProfitLossPercentageOfPrices(p);
  }
}
