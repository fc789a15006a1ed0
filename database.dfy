/**
 * The backend's relational store: one table per entity, held as maps that the
 * services update in place. The id counters stand for the identity columns.
 */
module Tables {
  import opened Entities

  predicate UsersKeyed(users: map<nat, User>, next: nat) {
    forall k :: k in users ==> users[k].id == k && k < next
  }

  predicate PortfoliosKeyed(portfolios: map<nat, Portfolio>, next: nat) {
    forall k :: k in portfolios ==> portfolios[k].id == k && k < next
  }

  predicate HoldingsKeyed(holdings: map<nat, StockHolding>, next: nat) {
    forall k :: k in holdings ==> holdings[k].id == k && k < next
  }

  predicate NewsKeyed(news: map<nat, StockNews>, next: nat) {
    forall k :: k in news ==> news[k].id == k && k < next
  }

  /** The stocks table is keyed by symbol. */
  predicate StocksKeyed(stocks: map<string, Stock>) {
    forall s :: s in stocks ==> stocks[s].symbol == s
  }

  /** Quantities are positive and average prices non-negative, as the validated requests that create them make them. */
  predicate HoldingAmounts(holdings: map<nat, StockHolding>) {
    forall k :: k in holdings ==> holdings[k].quantity > 0.0 && holdings[k].averagePurchasePrice >= 0.0
  }

  class Database {
    var users: map<nat, User>
    var nextUserId: nat
    var portfolios: map<nat, Portfolio>
    var nextPortfolioId: nat
    var stocks: map<string, Stock>
    var holdings: map<nat, StockHolding>
    var nextHoldingId: nat
    var news: map<nat, StockNews>
    var nextNewsId: nat

    /** The integrity the schema and the services keep. */
    ghost predicate Valid()
      reads this
    {
      && UsersKeyed(users, nextUserId) && UniqueUsernames(users) && UniqueEmails(users)
      && PortfoliosKeyed(portfolios, nextPortfolioId)
      && StocksKeyed(stocks)
      && HoldingsKeyed(holdings, nextHoldingId) && OneHoldingPerLine(holdings)
      && StocksPresent(holdings, stocks) && HoldingAmounts(holdings)
      && NewsKeyed(news, nextNewsId)
    }

    /** An empty store. */
    constructor ()
      ensures Valid()
      ensures users == map[] && portfolios == map[] && stocks == map[] && holdings == map[] && news == map[]
    {
      users, nextUserId := map[], 0;
      portfolios, nextPortfolioId := map[], 0;
      stocks := map[];
      holdings, nextHoldingId := map[], 0;
      news, nextNewsId := map[], 0;
    }
  }
}
