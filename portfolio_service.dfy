/**
 * The portfolio ledger: a user's portfolios and the stock holdings in them. Every
 * operation first resolves the user and the user's own portfolio; an operation on a
 * holding also checks that the holding belongs to that user and portfolio. A failed
 * check throws and leaves every table as it was.
 */
module PortfolioService {
  import opened Wrappers
  import opened Rounding
  import opened Text
  import opened Entities
  import opened Tables
  import opened Holdings
  import opened HoldingDtos
  import opened PortfolioDtos
  import opened UserService

  /** One line of the portfolio list. */
  datatype PortfolioSummary = PortfolioSummary(
    id: nat,
    name: string,
    description: Option<string>,
    stockCount: nat,
    totalValue: real,
    totalProfitLoss: real,
    totalProfitLossPercentage: real,
    currency: string)

  function PortfolioNotFound(id: nat): Error {
    ResourceNotFound("Portfolio not found with id: " + NatToString(id))
  }

  function HoldingNotFound(id: nat): Error {
    ResourceNotFound("Stock holding not found with id: " + NatToString(id))
  }

  function StockNotFound(symbol: string): Error {
    ResourceNotFound("Stock not found with symbol: " + symbol)
  }

  const NotOwner: Error := IllegalArgument("Stock holding does not belong to this user or portfolio")

  /** The first check that fails when a user addresses a portfolio: the user exists, then owns that portfolio. */
  function PortfolioAccess(users: map<nat, User>, portfolios: map<nat, Portfolio>, userId: nat, portfolioId: nat): (r: Option<Error>)
    ensures r.None? <==> userId in users && portfolioId in portfolios && portfolios[portfolioId].userId == userId
  {
    if userId !in users then Some(UserNotFound(userId))
    else if FindPortfolioByIdAndUser(portfolios, portfolioId, userId).None? then Some(PortfolioNotFound(portfolioId))
    else None
  }

  /** The checks of an operation on one holding: portfolio access, then the holding exists, then it is on that user and portfolio. */
  function HoldingAccess(users: map<nat, User>, portfolios: map<nat, Portfolio>, holdings: map<nat, StockHolding>,
                         userId: nat, portfolioId: nat, holdingId: nat): (r: Option<Error>)
    ensures r.None? <==> PortfolioAccess(users, portfolios, userId, portfolioId).None?
                         && holdingId in holdings
                         && holdings[holdingId].userId == userId && holdings[holdingId].portfolioId == portfolioId
    ensures PortfolioAccess(users, portfolios, userId, portfolioId).Some? ==> r == PortfolioAccess(users, portfolios, userId, portfolioId)
  {
    if PortfolioAccess(users, portfolios, userId, portfolioId).Some? then PortfolioAccess(users, portfolios, userId, portfolioId)
    else if holdingId !in holdings then Some(HoldingNotFound(holdingId))
    else if holdings[holdingId].userId != userId || holdings[holdingId].portfolioId != portfolioId then Some(NotOwner)
    else None
  }

  /** What `getUserPortfolios` reports for one portfolio with the given holdings. */
  function Summary(p: Portfolio, ps: seq<Position>, currency: string): (s: PortfolioSummary)
    ensures s.id == p.id && s.name == p.name && s.description == p.description
    ensures s.stockCount == |ps| && s.currency == currency
    ensures s.totalValue == TotalValue(ps)
    ensures s.totalProfitLoss == TotalValue(ps) - TotalCost(ps)
    ensures TotalCost(ps) <= 0.0 ==> s.totalProfitLossPercentage == 0.0
    ensures TotalCost(ps) > 0.0 ==> s.totalProfitLossPercentage == PercentOf(TotalValue(ps) - TotalCost(ps), TotalCost(ps))
  {
    var value, cost := TotalValue(ps), TotalCost(ps);
    PortfolioSummary(p.id, p.name, p.description, |ps|, value, value - cost, TotalPercentage(value, cost), currency)
  }

  /** The holdings of a portfolio, with their stocks, as the repository lists them. */
  function PositionsOf(db: Database, portfolioId: nat): seq<Position>
    reads db
    requires db.Valid()
  {
    FindPositionsByPortfolio(db.holdings, db.stocks, db.nextHoldingId, portfolioId)
  }

  /** The loop of `getUserPortfolios` that adds up one portfolio's current value and cost. */
  method SumHoldings(ps: seq<Position>) returns (totalValue: real, totalCost: real)
    ensures totalValue == TotalValue(ps) && totalCost == TotalCost(ps)
  {
    totalValue, totalCost := 0.0, 0.0;
    var k := 0;
    while k < |ps|
      invariant 0 <= k <= |ps|
      invariant totalValue == TotalValue(ps[..k]) && totalCost == TotalCost(ps[..k])
    {
      assert ps[..k + 1][..k] == ps[..k];
      totalValue := totalValue + CurrentValue(ps[k]);
      totalCost := totalCost + ps[k].holding.averagePurchasePrice * ps[k].holding.quantity;
      k := k + 1;
    }
    assert ps[..|ps|] == ps;
  }

  /** The body of the loop of `getUserPortfolios` for one portfolio: its totals and their percentage. */
  method Summarize(p: Portfolio, ps: seq<Position>, currency: string) returns (s: PortfolioSummary)
    ensures s == Summary(p, ps, currency)
  {
    var totalValue, totalCost := SumHoldings(ps);
    var profitLoss := totalValue - totalCost;
    var percentage := if totalCost > 0.0 then PercentOf(profitLoss, totalCost) else 0.0;
    s := PortfolioSummary(p.id, p.name, p.description, |ps|, totalValue, profitLoss, percentage, currency);
  }

  /**
   * The list view and the detail view of the same holdings agree: the summary's
   * holding count, totals and percentage are the detail's.
   */
  method SummaryAgreesWithDetail(p: Portfolio, ps: seq<Position>, currency: string)
    returns (s: PortfolioSummary, d: Result<PortfolioDto>)
    ensures s == Summary(p, ps, currency)
    ensures d.Success? ==>
      && d.value.id == s.id && d.value.name == s.name && d.value.description == s.description
      && |d.value.holdings| == s.stockCount && d.value.currency == s.currency
      && d.value.totalValue == s.totalValue && d.value.totalProfitLoss == s.totalProfitLoss
      && d.value.totalProfitLossPercentage == s.totalProfitLossPercentage
  {
    s := Summarize(p, ps, currency);
    d := Build(p, ps, currency);
  }

  /** The summary `getUserPortfolios` reports for portfolio p of a user whose preferred currency is `currency`. */
  function SummaryOf(db: Database, p: Portfolio, currency: string): PortfolioSummary
    reads db
    requires db.Valid()
  {
    Summary(p, PositionsOf(db, p.id), currency)
  }

  /** The stream of `getUserPortfolios`: for each portfolio, its holdings query and the summing loop. */
  method SummarizeAll(db: Database, ports: seq<Portfolio>, currency: string) returns (summaries: seq<PortfolioSummary>)
    requires db.Valid()
    ensures |summaries| == |ports|
    ensures forall i :: 0 <= i < |ports| ==> summaries[i] == SummaryOf(db, ports[i], currency)
  {
    summaries := [];
    var i := 0;
    while i < |ports|
      invariant 0 <= i <= |ports| && |summaries| == i
      invariant forall j :: 0 <= j < i ==> summaries[j] == SummaryOf(db, ports[j], currency)
    {
      var summary := Summarize(ports[i], PositionsOf(db, ports[i].id), currency);
      summaries := summaries + [summary];
      i := i + 1;
    }
  }

  /** `getUserPortfolios`: one summary per portfolio of the user, in repository order. */
  method GetUserPortfolios(db: Database, userId: nat) returns (r: Result<seq<PortfolioSummary>>)
    requires db.Valid()
    ensures r.Success? <==> userId in db.users
    ensures r.Failure? ==> r.error == UserNotFound(userId)
    ensures r.Success? ==>
      var ports := FindPortfoliosByUser(db.portfolios, db.nextPortfolioId, userId);
      && |r.value| == |ports|
      && forall i :: 0 <= i < |ports| ==> r.value[i] == SummaryOf(db, ports[i], db.users[userId].preferredCurrency)
  {
    var user := GetUserById(db, userId);
    if user.Failure? {
      return Failure(user.error);
    }
    var ports := FindPortfoliosByUser(db.portfolios, db.nextPortfolioId, userId);
    var summaries := SummarizeAll(db, ports, user.value.preferredCurrency);
    r := Success(summaries);
  }

  /** `getPortfolio`: the detail view of one of the user's own portfolios, in the user's preferred currency. */
  method GetPortfolio(db: Database, userId: nat, portfolioId: nat) returns (r: Result<PortfolioDto>)
    requires db.Valid()
    ensures PortfolioAccess(db.users, db.portfolios, userId, portfolioId).Some? ==>
      r == Failure(PortfolioAccess(db.users, db.portfolios, userId, portfolioId).value)
    ensures PortfolioAccess(db.users, db.portfolios, userId, portfolioId).None? ==>
      var ps := PositionsOf(db, portfolioId);
      && (r.Success? <==> forall i :: 0 <= i < |ps| ==> CostBasis(ps[i]) != 0.0)
      && (r.Failure? ==> r.error == DivisionByZero)
      && (r.Success? ==>
            && r.value.id == portfolioId && r.value.name == db.portfolios[portfolioId].name
            && r.value.description == db.portfolios[portfolioId].description
            && r.value.currency == db.users[userId].preferredCurrency
            && |r.value.holdings| == |ps|
            && (forall i :: 0 <= i < |ps| ==> FromHolding(ps[i]) == Success(r.value.holdings[i]))
            && r.value.totalValue == TotalValue(ps) && r.value.totalCost == TotalCost(ps)
            && r.value.totalProfitLoss == TotalValue(ps) - TotalCost(ps)
            && r.value.totalProfitLossPercentage == TotalPercentage(TotalValue(ps), TotalCost(ps)))
  {
    var user := GetUserById(db, userId);
    if user.Failure? {
      return Failure(user.error);
    }
    var portfolio := FindPortfolioByIdAndUser(db.portfolios, portfolioId, userId);
    if portfolio.None? {
      return Failure(PortfolioNotFound(portfolioId));
    }
    var ps := PositionsOf(db, portfolioId);
    r := Build(portfolio.value, ps, user.value.preferredCurrency);
  }

  /** `createPortfolio`: a new portfolio row owned by the user. */
  method CreatePortfolio(db: Database, userId: nat, name: string, description: Option<string>) returns (r: Result<Portfolio>)
    requires db.Valid()
    modifies db
    ensures db.Valid()
    ensures r.Failure? <==> userId !in old(db.users)
    ensures r.Failure? ==> r.error == UserNotFound(userId) && unchanged(db)
    ensures r.Success? ==> (
      && r.value == Portfolio(old(db.nextPortfolioId), name, description, userId)
      && db.portfolios == old(db.portfolios)[r.value.id := r.value]
      && db.nextPortfolioId == old(db.nextPortfolioId) + 1)
    ensures db.nextUserId == old(db.nextUserId) && db.nextHoldingId == old(db.nextHoldingId) && db.nextNewsId == old(db.nextNewsId)
    ensures db.users == old(db.users) && db.holdings == old(db.holdings) && db.stocks == old(db.stocks) && db.news == old(db.news)
  {
    var user := GetUserById(db, userId);
    if user.Failure? {
      return Failure(user.error);
    }
    var portfolio := Portfolio(db.nextPortfolioId, name, description, userId);
    db.portfolios := db.portfolios[portfolio.id := portfolio];
    db.nextPortfolioId := db.nextPortfolioId + 1;
    r := Success(portfolio);
  }

  /** `updatePortfolio`: renames the user's own portfolio and replaces its description. */
  method UpdatePortfolio(db: Database, userId: nat, portfolioId: nat, name: string, description: Option<string>)
    returns (r: Result<Portfolio>)
    requires db.Valid()
    modifies db
    ensures db.Valid()
    ensures r.Failure? <==> PortfolioAccess(old(db.users), old(db.portfolios), userId, portfolioId).Some?
    ensures r.Failure? ==> r.error == PortfolioAccess(old(db.users), old(db.portfolios), userId, portfolioId).value && unchanged(db)
    ensures r.Success? ==> (
      && r.value == old(db.portfolios)[portfolioId].(name := name, description := description)
      && db.portfolios == old(db.portfolios)[portfolioId := r.value])
    ensures db.nextUserId == old(db.nextUserId) && db.nextPortfolioId == old(db.nextPortfolioId)
      && db.nextHoldingId == old(db.nextHoldingId) && db.nextNewsId == old(db.nextNewsId)
    ensures db.users == old(db.users) && db.holdings == old(db.holdings) && db.stocks == old(db.stocks) && db.news == old(db.news)
  {
    var user := GetUserById(db, userId);
    if user.Failure? {
      return Failure(user.error);
    }
    var portfolio := FindPortfolioByIdAndUser(db.portfolios, portfolioId, userId);
    if portfolio.None? {
      return Failure(PortfolioNotFound(portfolioId));
    }
    var updated := portfolio.value.(name := name, description := description);
    db.portfolios := db.portfolios[portfolioId := updated];
    r := Success(updated);
  }

  /** `deletePortfolio`: removes the user's own portfolio row. */
  method DeletePortfolio(db: Database, userId: nat, portfolioId: nat) returns (r: Result<()>)
    requires db.Valid()
    modifies db
    ensures db.Valid()
    ensures r.Failure? <==> PortfolioAccess(old(db.users), old(db.portfolios), userId, portfolioId).Some?
    ensures r.Failure? ==> r.error == PortfolioAccess(old(db.users), old(db.portfolios), userId, portfolioId).value && unchanged(db)
    ensures r.Success? ==> db.portfolios == old(db.portfolios) - {portfolioId}
    ensures db.nextUserId == old(db.nextUserId) && db.nextPortfolioId == old(db.nextPortfolioId)
      && db.nextHoldingId == old(db.nextHoldingId) && db.nextNewsId == old(db.nextNewsId)
    ensures db.users == old(db.users) && db.holdings == old(db.holdings) && db.stocks == old(db.stocks) && db.news == old(db.news)
  {
    var user := GetUserById(db, userId);
    if user.Failure? {
      return Failure(user.error);
    }
    var portfolio := FindPortfolioByIdAndUser(db.portfolios, portfolioId, userId);
    if portfolio.None? {
      return Failure(PortfolioNotFound(portfolioId));
    }
    db.portfolios := db.portfolios - {portfolioId};
    r := Success(());
  }

  // ----- merging a purchase into an existing holding -----

  /** The mean of two prices weighted by their quantities: total cost over total quantity. */
  function WeightedMean(a: real, q1: real, b: real, q2: real): real
    requires q1 + q2 != 0.0
  {
    (a * q1 + b * q2) / (q1 + q2)
  }

  /** The new average price when qty shares at price join oldQty shares bought at oldAvg: the cost-weighted mean, HALF_UP to cents. */
  function MergedAverage(oldAvg: real, oldQty: real, price: real, qty: real): real
    requires oldQty + qty != 0.0
  {
    RoundHalfUp(WeightedMean(oldAvg, oldQty, price, qty), 2)
  }

  /** A mean weighted by positive quantities lies between the two prices, and does not depend on their order. */
  lemma WeightedMeanBetween(a: real, q1: real, b: real, q2: real)
    requires q1 > 0.0 && q2 > 0.0 && a <= b
    ensures a <= WeightedMean(a, q1, b, q2) <= b
    ensures WeightedMean(b, q2, a, q1) == WeightedMean(a, q1, b, q2)
  {
    var m := WeightedMean(a, q1, b, q2);
    assert (b - a) * q2 >= 0.0 by { ProductSign(b - a, q2); }
    assert (b - a) * q1 >= 0.0 by { ProductSign(b - a, q1); }
    assert m * (q1 + q2) == a * q1 + b * q2;
    assert a * (q1 + q2) <= m * (q1 + q2) <= b * (q1 + q2);
  }

  /** A mean of one price, whatever the weights, is that price. */
  lemma SamePriceMean(a: real, q1: real, q2: real)
    requires q1 > 0.0 && q2 > 0.0
    ensures WeightedMean(a, q1, a, q2) == a
  {
    assert a * q1 + a * q2 == a * (q1 + q2);
  }

  /**
   * The merged average is the cost-weighted mean to within half a cent, and lies
   * between the two prices once they are rounded to cents (so between the prices
   * themselves when they already are whole cents).
   */
  lemma MergedAverageBounds(oldAvg: real, oldQty: real, price: real, qty: real)
    requires oldQty > 0.0 && qty > 0.0
    ensures -0.005 <= MergedAverage(oldAvg, oldQty, price, qty) - WeightedMean(oldAvg, oldQty, price, qty) <= 0.005
    ensures oldAvg <= price ==>
      RoundHalfUp(oldAvg, 2) <= MergedAverage(oldAvg, oldQty, price, qty) <= RoundHalfUp(price, 2)
    ensures price <= oldAvg ==>
      RoundHalfUp(price, 2) <= MergedAverage(oldAvg, oldQty, price, qty) <= RoundHalfUp(oldAvg, 2)
    ensures oldAvg >= 0.0 && price >= 0.0 ==> MergedAverage(oldAvg, oldQty, price, qty) >= 0.0
  {
    var mean := WeightedMean(oldAvg, oldQty, price, qty);
    assert Pow10(2) == 100;
    if oldAvg <= price {
      WeightedMeanBetween(oldAvg, oldQty, price, qty);
      RoundHalfUpMonotonic(oldAvg, mean, 2);
      RoundHalfUpMonotonic(mean, price, 2);
    } else {
      WeightedMeanBetween(price, qty, oldAvg, oldQty);
      RoundHalfUpMonotonic(price, mean, 2);
      RoundHalfUpMonotonic(mean, oldAvg, 2);
    }
  }

  /** Buying more at the price already paid leaves the average unchanged, when that price is in whole cents. */
  lemma MergedAverageSamePrice(avg: real, oldQty: real, qty: real)
    requires oldQty > 0.0 && qty > 0.0 && HasScale(avg, 2)
    ensures MergedAverage(avg, oldQty, avg, qty) == avg
  {
    SamePriceMean(avg, oldQty, qty);
    RoundHalfUpExact(avg, 2);
  }

  /** The row `addStockToPortfolio` writes: the merged holding, or a new one on that line. */
  function AddedHolding(holdings: map<nat, StockHolding>, nextId: nat, userId: nat, portfolioId: nat, symbol: string,
                        quantity: real, price: real, now: int): (h: StockHolding)
    requires HoldingAmounts(holdings) && quantity > 0.0
    ensures FindLine(holdings, nextId, userId, symbol, portfolioId).Some? ==>
      var old_ := holdings[FindLine(holdings, nextId, userId, symbol, portfolioId).value];
      && h == old_.(quantity := old_.quantity + quantity,
                    averagePurchasePrice := MergedAverage(old_.averagePurchasePrice, old_.quantity, price, quantity))
    ensures FindLine(holdings, nextId, userId, symbol, portfolioId).None? ==>
      h == StockHolding(nextId, userId, portfolioId, symbol, quantity, price, now)
  {
    match FindLine(holdings, nextId, userId, symbol, portfolioId)
    case Some(id) =>
      var existing := holdings[id];
      existing.(quantity := existing.quantity + quantity,
                averagePurchasePrice := MergedAverage(existing.averagePurchasePrice, existing.quantity, price, quantity))
    case None => StockHolding(nextId, userId, portfolioId, symbol, quantity, price, now)
  }

  /** The checks `addStockToPortfolio` makes in order: portfolio access, then the stock exists. */
  function AddAccess(users: map<nat, User>, portfolios: map<nat, Portfolio>, stocks: map<string, Stock>,
                     userId: nat, portfolioId: nat, symbol: string): (r: Option<Error>)
    ensures r.None? <==> PortfolioAccess(users, portfolios, userId, portfolioId).None? && symbol in stocks
    ensures PortfolioAccess(users, portfolios, userId, portfolioId).Some? ==> r == PortfolioAccess(users, portfolios, userId, portfolioId)
  {
    if PortfolioAccess(users, portfolios, userId, portfolioId).Some? then PortfolioAccess(users, portfolios, userId, portfolioId)
    else if symbol !in stocks then Some(StockNotFound(symbol))
    else None
  }

  /**
   * `addStockToPortfolio`: a purchase on a line (user, stock, portfolio) the user
   * already holds is merged into that holding, raising its quantity and
   * re-weighting its average price; otherwise a new holding is created. Either way
   * there is still at most one holding per line. Quantity and price are positive:
   * the controller validates the request body.
   */
  method AddStockToPortfolio(db: Database, userId: nat, portfolioId: nat, symbol: string,
                             quantity: real, price: real, now: int) returns (r: Result<StockHolding>)
    requires db.Valid() && quantity > 0.0 && price > 0.0
    modifies db
    ensures db.Valid()
    ensures r.Failure? <==> AddAccess(old(db.users), old(db.portfolios), old(db.stocks), userId, portfolioId, symbol).Some?
    ensures r.Failure? ==> r.error == AddAccess(old(db.users), old(db.portfolios), old(db.stocks), userId, portfolioId, symbol).value
                           && unchanged(db)
    ensures r.Success? ==> (
      && r.value == AddedHolding(old(db.holdings), old(db.nextHoldingId), userId, portfolioId, symbol, quantity, price, now)
      && db.holdings == old(db.holdings)[r.value.id := r.value]
      && (old(FindLine(db.holdings, db.nextHoldingId, userId, symbol, portfolioId)).Some? ==>
            db.nextHoldingId == old(db.nextHoldingId) && r.value.id in old(db.holdings))
      && (old(FindLine(db.holdings, db.nextHoldingId, userId, symbol, portfolioId)).None? ==>
            db.nextHoldingId == old(db.nextHoldingId) + 1 && r.value.id !in old(db.holdings)))
    ensures db.nextUserId == old(db.nextUserId) && db.nextPortfolioId == old(db.nextPortfolioId) && db.nextNewsId == old(db.nextNewsId)
    ensures db.users == old(db.users) && db.portfolios == old(db.portfolios) && db.stocks == old(db.stocks) && db.news == old(db.news)
  {
    var user := GetUserById(db, userId);
    if user.Failure? {
      return Failure(user.error);
    }
    var portfolio := FindPortfolioByIdAndUser(db.portfolios, portfolioId, userId);
    if portfolio.None? {
      return Failure(PortfolioNotFound(portfolioId));
    }
    if symbol !in db.stocks {
      return Failure(StockNotFound(symbol));
    }
    var line := FindLine(db.holdings, db.nextHoldingId, userId, symbol, portfolioId);
    var holding := AddedHolding(db.holdings, db.nextHoldingId, userId, portfolioId, symbol, quantity, price, now);
    if line.Some? {
      var existing := db.holdings[line.value];
      MergedAverageBounds(existing.averagePurchasePrice, existing.quantity, price, quantity);
      db.holdings := db.holdings[line.value := holding];
    } else {
      db.holdings := db.holdings[db.nextHoldingId := holding];
      db.nextHoldingId := db.nextHoldingId + 1;
    }
    r := Success(holding);
  }

  /** `removeStockFromPortfolio`: deletes a holding of the user's own portfolio. */
  method RemoveStockFromPortfolio(db: Database, userId: nat, portfolioId: nat, holdingId: nat) returns (r: Result<()>)
    requires db.Valid()
    modifies db
    ensures db.Valid()
    ensures r.Failure? <==> HoldingAccess(old(db.users), old(db.portfolios), old(db.holdings), userId, portfolioId, holdingId).Some?
    ensures r.Failure? ==>
      r.error == HoldingAccess(old(db.users), old(db.portfolios), old(db.holdings), userId, portfolioId, holdingId).value
      && unchanged(db)
    ensures r.Success? ==> db.holdings == old(db.holdings) - {holdingId}
    ensures db.nextUserId == old(db.nextUserId) && db.nextPortfolioId == old(db.nextPortfolioId)
      && db.nextHoldingId == old(db.nextHoldingId) && db.nextNewsId == old(db.nextNewsId)
    ensures db.users == old(db.users) && db.portfolios == old(db.portfolios) && db.stocks == old(db.stocks) && db.news == old(db.news)
  {
    var user := GetUserById(db, userId);
    if user.Failure? {
      return Failure(user.error);
    }
    var portfolio := FindPortfolioByIdAndUser(db.portfolios, portfolioId, userId);
    if portfolio.None? {
      return Failure(PortfolioNotFound(portfolioId));
    }
    if holdingId !in db.holdings {
      return Failure(HoldingNotFound(holdingId));
    }
    var holding := db.holdings[holdingId];
    if holding.userId != userId || holding.portfolioId != portfolioId {
      return Failure(NotOwner);
    }
    db.holdings := db.holdings - {holdingId};
    r := Success(());
  }

  /**
   * `updateStockHolding`: overwrites the quantity and average price of a holding of
   * the user's own portfolio, and nothing else. Both are positive: the controller
   * validates the request body.
   */
  method UpdateStockHolding(db: Database, userId: nat, portfolioId: nat, holdingId: nat, quantity: real, price: real)
    returns (r: Result<StockHolding>)
    requires db.Valid() && quantity > 0.0 && price > 0.0
    modifies db
    ensures db.Valid()
    ensures r.Failure? <==> HoldingAccess(old(db.users), old(db.portfolios), old(db.holdings), userId, portfolioId, holdingId).Some?
    ensures r.Failure? ==>
      r.error == HoldingAccess(old(db.users), old(db.portfolios), old(db.holdings), userId, portfolioId, holdingId).value
      && unchanged(db)
    ensures r.Success? ==> (
      && r.value == old(db.holdings)[holdingId].(quantity := quantity, averagePurchasePrice := price)
      && db.holdings == old(db.holdings)[holdingId := r.value])
    ensures db.nextUserId == old(db.nextUserId) && db.nextPortfolioId == old(db.nextPortfolioId)
      && db.nextHoldingId == old(db.nextHoldingId) && db.nextNewsId == old(db.nextNewsId)
    ensures db.users == old(db.users) && db.portfolios == old(db.portfolios) && db.stocks == old(db.stocks) && db.news == old(db.news)
  {
    var user := GetUserById(db, userId);
    if user.Failure? {
      return Failure(user.error);
    }
    var portfolio := FindPortfolioByIdAndUser(db.portfolios, portfolioId, userId);
    if portfolio.None? {
      return Failure(PortfolioNotFound(portfolioId));
    }
    if holdingId !in db.holdings {
      return Failure(HoldingNotFound(holdingId));
    }
    var holding := db.holdings[holdingId];
    if holding.userId != userId || holding.portfolioId != portfolioId {
      return Failure(NotOwner);
    }
    var updated := holding.(quantity := quantity, averagePurchasePrice := price);
    db.holdings := db.holdings[holdingId := updated];
    r := Success(updated);
  }
}
