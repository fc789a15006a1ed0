/**
 * The derived values of a stock holding: its current value, cost basis, profit or
 * loss and profit/loss percentage, computed from the holding's columns and the
 * current price of the stock it refers to.
 */
module Holdings {
  import opened Entities
  import opened Rounding

  /** `getCurrentValue`: the stock's current price times the quantity held. */
  function CurrentValue(p: Position): real {
    p.stock.currentPrice * p.holding.quantity
  }

  /** The cost basis: average purchase price times quantity. */
  function CostBasis(p: Position): real {
    p.holding.averagePurchasePrice * p.holding.quantity
  }

  /** `getProfitLoss`. */
  function ProfitLoss(p: Position): real {
    CurrentValue(p) - CostBasis(p)
  }

  /**
   * `getProfitLossPercentage`. The source divides without a guard, so a zero cost
   * basis throws; callers must exclude it.
   */
  function ProfitLossPercentage(p: Position): (r: real)
    requires CostBasis(p) != 0.0
    ensures r == RoundHalfUp(ProfitLoss(p) / CostBasis(p), 4) * 100.0
    ensures HasScale(r, 2)
    ensures -0.005 <= r - ProfitLoss(p) / CostBasis(p) * 100.0 <= 0.005
  {
    PercentOf(ProfitLoss(p), CostBasis(p))
  }

  lemma ProductSign(x: real, q: real)
    requires q > 0.0
    ensures x * q >= 0.0 <==> x >= 0.0
    ensures x * q > 0.0 <==> x > 0.0
  {
    if x >= 0.0 { assert x * q >= 0.0 * q; } else { assert (-x) * q > 0.0; }
  }

  /** The profit or loss is the price gap per share times the quantity. */
  lemma ProfitLossIsPriceGap(p: Position)
    ensures ProfitLoss(p) == (p.stock.currentPrice - p.holding.averagePurchasePrice) * p.holding.quantity
  {
  }

  /** With a positive quantity, a holding is in profit (or even) exactly when the price is at least the average purchase price. */
  lemma ProfitLossSign(p: Position)
    requires p.holding.quantity > 0.0
    ensures ProfitLoss(p) >= 0.0 <==> p.stock.currentPrice >= p.holding.averagePurchasePrice
    ensures ProfitLoss(p) > 0.0 <==> p.stock.currentPrice > p.holding.averagePurchasePrice
  {
    var gap := p.stock.currentPrice - p.holding.averagePurchasePrice;
    ProfitLossIsPriceGap(p);
    ProductSign(gap, p.holding.quantity);
    assert ProfitLoss(p) == gap * p.holding.quantity;
  }

  /**
   * The percentage does not depend on the quantity: it is the price gap relative to
   * the average purchase price.
   */
  lemma ProfitLossPercentageOfPrices(p: Position)
    requires p.holding.quantity != 0.0 && p.holding.averagePurchasePrice != 0.0
    ensures CostBasis(p) != 0.0
    ensures ProfitLossPercentage(p)
         == PercentOf(p.stock.currentPrice - p.holding.averagePurchasePrice, p.holding.averagePurchasePrice)
  {
    var q, a := p.holding.quantity, p.holding.averagePurchasePrice;
    ProfitLossIsPriceGap(p);
    PercentOfScaled(ProfitLoss(p), CostBasis(p), p.stock.currentPrice - a, a, q);
  }

  /** With a positive cost basis, the percentage has the sign of the profit or loss. */
  lemma ProfitLossPercentageSign(p: Position)
    requires CostBasis(p) > 0.0
    ensures ProfitLoss(p) >= 0.0 ==> ProfitLossPercentage(p) >= 0.0
    ensures ProfitLoss(p) < 0.0 ==> ProfitLossPercentage(p) <= 0.0
  {
    PercentOfSign(ProfitLoss(p), CostBasis(p));
  }
}
