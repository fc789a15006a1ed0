/**
 * The backend's JPA entities as values, and the repository finders the services
 * use, as functions over the tables. A table is a map from primary key to row;
 * generated ids come from a counter that is above every key in use, and the
 * finders that return lists enumerate rows in ascending id order.
 */
module Entities {
  import opened Wrappers

  /** A row of `users`. */
  datatype User = User(id: nat, username: string, email: string, password: string, preferredCurrency: string)

  /** A row of `portfolios`: the owner is the `user_id` column. */
  datatype Portfolio = Portfolio(id: nat, name: string, description: Option<string>, userId: nat)

  /** A row of `stocks`, keyed by symbol; the nullable columns are options. */
  datatype Stock = Stock(
    symbol: string,
    name: string,
    currentPrice: real,
    previousClose: Option<real>,
    dayHigh: Option<real>,
    dayLow: Option<real>,
    volume: Option<int>,
    exchange: Option<string>,
    lastUpdated: int)

  /**
   * A row of `stock_holdings`. Every column is NOT NULL, so no field is an option;
   * the stock is held as its `stock_symbol` foreign key.
   */
  datatype StockHolding = StockHolding(
    id: nat,
    userId: nat,
    portfolioId: nat,
    symbol: string,
    quantity: real,
    averagePurchasePrice: real,
    purchaseDate: int)

  /** A holding together with the stock row it refers to, as the holding entity is loaded (its stock is fetched eagerly). */
  datatype Position = Position(holding: StockHolding, stock: Stock)

  /** A row of `stock_news`; `relatedSymbols` is a comma-joined list of symbols. */
  datatype StockNews = StockNews(
    id: nat,
    title: string,
    summary: string,
    source: string,
    url: string,
    imageUrl: Option<string>,
    publishedAt: int,
    relatedSymbols: Option<string>)

  // ----- table invariants -----

  /** Every key is the row's own id and lies below the id counter. */
  predicate KeyedById<T>(t: map<nat, T>, id: T -> nat, next: nat) {
    forall k :: k in t ==> id(t[k]) == k && k < next
  }

  predicate UniqueUsernames(users: map<nat, User>) {
    forall i, j :: i in users && j in users && users[i].username == users[j].username ==> i == j
  }

  predicate UniqueEmails(users: map<nat, User>) {
    forall i, j :: i in users && j in users && users[i].email == users[j].email ==> i == j
  }

  /** Two holdings of the same user, stock and portfolio. */
  predicate SameLine(a: StockHolding, b: StockHolding) {
    a.userId == b.userId && a.symbol == b.symbol && a.portfolioId == b.portfolioId
  }

  /** At most one holding per (user, stock, portfolio). */
  predicate OneHoldingPerLine(holdings: map<nat, StockHolding>) {
    forall i, j :: i in holdings && j in holdings && SameLine(holdings[i], holdings[j]) ==> i == j
  }

  // ----- repository finders -----

  /** `userRepository.findById`. */
  function FindUserById(users: map<nat, User>, id: nat): (r: Option<User>)
    ensures r.Some? <==> id in users
    ensures r.Some? ==> r.value == users[id]
  {
    if id in users then Some(users[id]) else None
  }

  /** `existsByUsername`. */
  predicate UsernameTaken(users: map<nat, User>, username: string) {
    exists k :: k in users && users[k].username == username
  }

  /** `existsByEmail`. */
  predicate EmailTaken(users: map<nat, User>, email: string) {
    exists k :: k in users && users[k].email == email
  }

  /** `findByUsername`: the user with that name, searching ids below n. */
  function FindUserByUsername(users: map<nat, User>, n: nat, username: string): (r: Option<User>)
    ensures r.Some? ==> r.value.username == username && exists k :: k < n && k in users && users[k] == r.value
    ensures r.None? ==> forall k :: k in users && k < n ==> users[k].username != username
  {
    if n == 0 then None
    else if n - 1 in users && users[n - 1].username == username then Some(users[n - 1])
    else FindUserByUsername(users, n - 1, username)
  }

  /**
   * `portfolioRepository.findByUser`: the user's portfolios with ids below n, each
   * once, in ascending id order.
   */
  function FindPortfoliosByUser(portfolios: map<nat, Portfolio>, n: nat, userId: nat): (r: seq<Portfolio>)
    requires forall k :: k in portfolios ==> portfolios[k].id == k
    ensures forall i :: 0 <= i < |r| ==>
      r[i].userId == userId && r[i].id < n && r[i].id in portfolios && portfolios[r[i].id] == r[i]
    ensures forall i, j :: 0 <= i < j < |r| ==> r[i].id < r[j].id
    ensures forall k :: k in portfolios && k < n && portfolios[k].userId == userId ==> portfolios[k] in r
  {
    if n == 0 then []
    else
      FindPortfoliosByUser(portfolios, n - 1, userId)
        + (if n - 1 in portfolios && portfolios[n - 1].userId == userId then [portfolios[n - 1]] else [])
  }

  /** `portfolioRepository.findByIdAndUser`. */
  function FindPortfolioByIdAndUser(portfolios: map<nat, Portfolio>, id: nat, userId: nat): (r: Option<Portfolio>)
    ensures r.Some? <==> id in portfolios && portfolios[id].userId == userId
    ensures r.Some? ==> r.value == portfolios[id]
  {
    if id in portfolios && portfolios[id].userId == userId then Some(portfolios[id]) else None
  }

  /** Every holding refers to a stock row. */
  predicate StocksPresent(holdings: map<nat, StockHolding>, stocks: map<string, Stock>) {
    forall k :: k in holdings ==> holdings[k].symbol in stocks
  }

  /**
   * `stockHoldingRepository.findByPortfolio`: the portfolio's holdings with ids below
   * n, each once and with its stock, in ascending id order.
   */
  function FindPositionsByPortfolio(holdings: map<nat, StockHolding>, stocks: map<string, Stock>, n: nat, portfolioId: nat): (r: seq<Position>)
    requires StocksPresent(holdings, stocks)
    requires forall k :: k in holdings ==> holdings[k].id == k
    ensures forall i :: 0 <= i < |r| ==>
      && r[i].holding.portfolioId == portfolioId && r[i].holding.id < n
      && r[i].holding.id in holdings && holdings[r[i].holding.id] == r[i].holding
      && r[i].stock == stocks[r[i].holding.symbol]
    ensures forall i, j :: 0 <= i < j < |r| ==> r[i].holding.id < r[j].holding.id
    ensures forall k :: k in holdings && k < n && holdings[k].portfolioId == portfolioId ==>
      Position(holdings[k], stocks[holdings[k].symbol]) in r
  {
    if n == 0 then []
    else
      FindPositionsByPortfolio(holdings, stocks, n - 1, portfolioId)
        + (if n - 1 in holdings && holdings[n - 1].portfolioId == portfolioId
           then [Position(holdings[n - 1], stocks[holdings[n - 1].symbol])] else [])
  }

  /** `findByUserAndStockAndPortfolio`: the id of the holding on that line, searching ids below n. */
  function FindLine(holdings: map<nat, StockHolding>, n: nat, userId: nat, symbol: string, portfolioId: nat): (r: Option<nat>)
    ensures r.Some? ==> (r.value < n && r.value in holdings
      && holdings[r.value].userId == userId && holdings[r.value].symbol == symbol && holdings[r.value].portfolioId == portfolioId)
    ensures r.None? ==> forall k :: k in holdings && k < n ==>
      !(holdings[k].userId == userId && holdings[k].symbol == symbol && holdings[k].portfolioId == portfolioId)
  {
    if n == 0 then None
    else if n - 1 in holdings && holdings[n - 1].userId == userId && holdings[n - 1].symbol == symbol
            && holdings[n - 1].portfolioId == portfolioId
    then Some(n - 1)
    else FindLine(holdings, n - 1, userId, symbol, portfolioId)
  }

  /** The distinct elements of s, in order of first occurrence. */
  function Distinct(s: seq<string>): (r: seq<string>)
    ensures forall x :: x in r <==> x in s
    ensures forall i, j :: 0 <= i < j < |r| ==> r[i] != r[j]
  {
    if s == [] then []
    else
      var rest := Distinct(s[..|s| - 1]);
      if s[|s| - 1] in rest then rest else rest + [s[|s| - 1]]
  }

  /** The symbols of the user's holdings with ids below n, in ascending id order, repeats kept. */
  function HeldSymbols(holdings: map<nat, StockHolding>, n: nat, userId: nat): (r: seq<string>)
    ensures forall x :: x in r <==> exists k :: k in holdings && k < n && holdings[k].userId == userId && holdings[k].symbol == x
  {
    if n == 0 then []
    else
      HeldSymbols(holdings, n - 1, userId)
        + (if n - 1 in holdings && holdings[n - 1].userId == userId then [holdings[n - 1].symbol] else [])
  }

  /** `findDistinctStockSymbolsByUser`. */
  function FindDistinctSymbolsByUser(holdings: map<nat, StockHolding>, n: nat, userId: nat): (r: seq<string>)
    ensures forall i, j :: 0 <= i < j < |r| ==> r[i] != r[j]
    ensures forall x :: x in r <==> exists k :: k in holdings && k < n && holdings[k].userId == userId && holdings[k].symbol == x
  {
    Distinct(HeldSymbols(holdings, n, userId))
  }
}
