/**
 * The portfolio detail view: the portfolio's own columns, its holdings mapped one
 * by one, and the totals accumulated over them. The totals and the percentage rule
 * are shared with the portfolio summaries.
 */
module PortfolioDtos {
  import opened Wrappers
  import opened Rounding
  import opened Entities
  import opened Holdings
  import opened HoldingDtos

  datatype PortfolioDto = PortfolioDto(
    id: nat,
    name: string,
    description: Option<string>,
    holdings: seq<StockHoldingDto>,
    totalValue: real,
    totalCost: real,
    totalProfitLoss: real,
    totalProfitLossPercentage: real,
    currency: string)

  /** The sum of the holdings' current values. */
  function TotalValue(ps: seq<Position>): real {
    if ps == [] then 0.0 else TotalValue(ps[..|ps| - 1]) + CurrentValue(ps[|ps| - 1])
  }

  /** The sum of the holdings' cost bases, average purchase price times quantity. */
  function TotalCost(ps: seq<Position>): real {
    if ps == [] then 0.0 else TotalCost(ps[..|ps| - 1]) + CostBasis(ps[|ps| - 1])
  }

  /** The sum of the holdings' own profit or loss. */
  function TotalOfProfitLoss(ps: seq<Position>): real {
    if ps == [] then 0.0 else TotalOfProfitLoss(ps[..|ps| - 1]) + ProfitLoss(ps[|ps| - 1])
  }

  /** The percentage rule of both the detail and the summary: 0 unless the cost is positive. */
  function TotalPercentage(value: real, cost: real): (r: real)
    ensures cost <= 0.0 ==> r == 0.0
    ensures cost > 0.0 ==> r == PercentOf(value - cost, cost)
    ensures cost > 0.0 ==> -0.005 <= r - (value - cost) / cost * 100.0 <= 0.005
    ensures HasScale(r, 2)
  {
    if cost > 0.0 then PercentOf(value - cost, cost) else 0.0
  }

  /** The portfolio's profit or loss is the sum of its holdings' profit or loss. */
  lemma {:induction false} TotalProfitLossIsSum(ps: seq<Position>)
    ensures TotalValue(ps) - TotalCost(ps) == TotalOfProfitLoss(ps)
  {
    if ps != [] {
      TotalProfitLossIsSum(ps[..|ps| - 1]);
    }
  }

  /** Holdings with positive quantities and non-negative prices have a non-negative total cost. */
  lemma {:induction false} TotalCostNonNegative(ps: seq<Position>)
    requires forall i :: 0 <= i < |ps| ==> ps[i].holding.quantity > 0.0 && ps[i].holding.averagePurchasePrice >= 0.0
    ensures TotalCost(ps) >= 0.0
  {
    if ps != [] {
      var last := ps[|ps| - 1];
      TotalCostNonNegative(ps[..|ps| - 1]);
      ProductSign(last.holding.averagePurchasePrice, last.holding.quantity);
    }
  }

  /** With a positive cost the percentage has the sign of the profit or loss. */
  lemma TotalPercentageSign(value: real, cost: real)
    requires cost > 0.0
    ensures value >= cost ==> TotalPercentage(value, cost) >= 0.0
    ensures value < cost ==> TotalPercentage(value, cost) <= 0.0
  {
    PercentOfSign(value - cost, cost);
  }

  /**
   * `new PortfolioDto(portfolio, holdings, currency)`: each holding mapped in order
   * (failing as soon as one has a zero cost basis), then the totals accumulated.
   */
  method Build(portfolio: Portfolio, ps: seq<Position>, currency: string) returns (r: Result<PortfolioDto>)
    ensures r.Success? <==> forall i :: 0 <= i < |ps| ==> CostBasis(ps[i]) != 0.0
    ensures r.Failure? ==> r.error == DivisionByZero
    ensures r.Success? ==> (
      && r.value.id == portfolio.id && r.value.name == portfolio.name
      && r.value.description == portfolio.description && r.value.currency == currency
      && |r.value.holdings| == |ps|
      && (forall i :: 0 <= i < |ps| ==> FromHolding(ps[i]) == Success(r.value.holdings[i]))
      && r.value.totalValue == TotalValue(ps) && r.value.totalCost == TotalCost(ps)
      && r.value.totalProfitLoss == r.value.totalValue - r.value.totalCost
      && r.value.totalProfitLossPercentage == TotalPercentage(r.value.totalValue, r.value.totalCost))
  {
    var dtos: seq<StockHoldingDto> := [];
    var i := 0;
    while i < |ps|
      invariant 0 <= i <= |ps| && |dtos| == i
      invariant forall j :: 0 <= j < i ==> FromHolding(ps[j]) == Success(dtos[j])
    {
      var d := FromHolding(ps[i]);
      if d.Failure? {
        return Failure(d.error);
      }
      dtos := dtos + [d.value];
      i := i + 1;
    }
    var totalValue, totalCost := 0.0, 0.0;
    i := 0;
    while i < |ps|
      invariant 0 <= i <= |ps|
      invariant totalValue == TotalValue(ps[..i]) && totalCost == TotalCost(ps[..i])
    {
      assert ps[..i + 1][..i] == ps[..i];
      totalValue := totalValue + CurrentValue(ps[i]);
      totalCost := totalCost + CostBasis(ps[i]);
      i := i + 1;
    }
    assert ps[..|ps|] == ps;
    var profitLoss := totalValue - totalCost;
    var percentage := if totalCost > 0.0 then PercentOf(profitLoss, totalCost) else 0.0;
    r := Success(PortfolioDto(portfolio.id, portfolio.name, portfolio.description, dtos,
                              totalValue, totalCost, profitLoss, percentage, currency));
  }
}
