/**
 * Market data: stock lookup, the client view of a stock with its day-over-day
 * percent change, conversion of that view into another currency from a fixed rate
 * table, and the periodic price update.
 */
module StockService {
  import opened Wrappers
  import opened Rounding
  import opened Entities
  import opened Tables

  /** The client view of a stock. */
  datatype StockDto = StockDto(
    symbol: string,
    name: string,
    currentPrice: real,
    previousClose: Option<real>,
    dayHigh: Option<real>,
    dayLow: Option<real>,
    volume: Option<int>,
    exchange: Option<string>,
    lastUpdated: int,
    currency: string,
    percentChange: Option<real>)

  /** `getStockBySymbol`. */
  method GetStockBySymbol(db: Database, symbol: string) returns (r: Result<Stock>)
    requires db.Valid()
    ensures r.Success? <==> symbol in db.stocks
    ensures r.Success? ==> r.value == db.stocks[symbol] && r.value.symbol == symbol
    ensures r.Failure? ==> r.error == ResourceNotFound("Stock not found with symbol: " + symbol)
  {
    if symbol in db.stocks {
      r := Success(db.stocks[symbol]);
    } else {
      r := Failure(ResourceNotFound("Stock not found with symbol: " + symbol));
    }
  }

  /** `getExchangeRate` from USD: the fixed table, and 1 for any other code. */
  function ExchangeRate(target: string): (rate: real)
    ensures rate > 0.0
    ensures target == "EUR" ==> rate == 0.91
    ensures target == "GBP" ==> rate == 0.79
    ensures target == "JPY" ==> rate == 111.22
    ensures target == "CAD" ==> rate == 1.34
    ensures target == "AUD" ==> rate == 1.47
    ensures target !in {"EUR", "GBP", "JPY", "CAD", "AUD"} ==> rate == 1.0
  {
    if target == "EUR" then 0.91
    else if target == "GBP" then 0.79
    else if target == "JPY" then 111.22
    else if target == "CAD" then 1.34
    else if target == "AUD" then 1.47
    else 1.0
  }

  /** The day-over-day change in percent, present only when there is a positive previous close. */
  function PercentChange(current: real, previousClose: Option<real>): (r: Option<real>)
    ensures r.Some? <==> previousClose.Some? && previousClose.value > 0.0
    ensures r.Some? ==> r.value == PercentOf(current - previousClose.value, previousClose.value)
  {
    if previousClose.Some? && previousClose.value > 0.0
    then Some(PercentOf(current - previousClose.value, previousClose.value))
    else None
  }

  /** The change is positive exactly when the price rose (to within the rounding of a tiny rise to zero). */
  lemma PercentChangeSign(current: real, previous: real)
    requires previous > 0.0
    ensures current >= previous ==> PercentChange(current, Some(previous)).value >= 0.0
    ensures current < previous ==> PercentChange(current, Some(previous)).value <= 0.0
  {
    PercentOfSign(current - previous, previous);
  }

  /** `convertToDto`: copies the stock, in USD, with its percent change. */
  function ToDto(s: Stock): (d: StockDto)
    ensures d.symbol == s.symbol && d.name == s.name && d.currentPrice == s.currentPrice
    ensures d.previousClose == s.previousClose && d.dayHigh == s.dayHigh && d.dayLow == s.dayLow
    ensures d.volume == s.volume && d.exchange == s.exchange && d.lastUpdated == s.lastUpdated
    ensures d.currency == "USD"
    ensures d.percentChange == PercentChange(s.currentPrice, s.previousClose)
  {
    StockDto(s.symbol, s.name, s.currentPrice, s.previousClose, s.dayHigh, s.dayLow, s.volume, s.exchange,
             s.lastUpdated, "USD", PercentChange(s.currentPrice, s.previousClose))
  }

  function Scale(x: Option<real>, rate: real): (r: Option<real>)
    ensures r.Some? <==> x.Some?
    ensures r.Some? ==> r.value == x.value * rate
  {
    if x.Some? then Some(x.value * rate) else None
  }

  /**
   * `convertCurrency`: for USD the plain view; otherwise the prices are multiplied
   * by the rate in place, absent prices staying absent, and the currency becomes
   * the target. The percent change, computed in USD, is kept.
   */
  method ConvertCurrency(s: Stock, target: string) returns (d: StockDto)
    ensures target == "USD" ==> d == ToDto(s)
    ensures target != "USD" ==>
      var rate := ExchangeRate(target);
      && d.currentPrice == s.currentPrice * rate
      && d.previousClose == Scale(s.previousClose, rate)
      && d.dayHigh == Scale(s.dayHigh, rate)
      && d.dayLow == Scale(s.dayLow, rate)
      && d.currency == target
      && d.symbol == s.symbol && d.name == s.name && d.volume == s.volume && d.exchange == s.exchange
      && d.lastUpdated == s.lastUpdated && d.percentChange == ToDto(s).percentChange
  {
    if target == "USD" {
      return ToDto(s);
    }
    var rate := ExchangeRate(target);
    var usd := ToDto(s);
    d := usd;
    d := d.(currentPrice := usd.currentPrice * rate);
    d := d.(previousClose := Scale(usd.previousClose, rate));
    d := d.(dayHigh := Scale(usd.dayHigh, rate));
    d := d.(dayLow := Scale(usd.dayLow, rate));
    d := d.(currency := target);
  }

  /** A converted price keeps the order of the USD prices: the rate is positive. */
  lemma ConversionKeepsOrder(x: real, y: real, target: string)
    requires x <= y
    ensures x * ExchangeRate(target) <= y * ExchangeRate(target)
  {
    var rate := ExchangeRate(target);
    assert (y - x) * rate >= 0.0;
  }

  /** The day's low and high after a new price: a missing bound, or one the price passes, becomes the price. */
  function NewDayHigh(dayHigh: Option<real>, price: real): (r: real)
    ensures r >= price
    ensures dayHigh.Some? ==> r >= dayHigh.value
    ensures r == price || (dayHigh.Some? && r == dayHigh.value)
  {
    if dayHigh.Some? && dayHigh.value > price then dayHigh.value else price
  }

  function NewDayLow(dayLow: Option<real>, price: real): (r: real)
    ensures r <= price
    ensures dayLow.Some? ==> r <= dayLow.value
    ensures r == price || (dayLow.Some? && r == dayLow.value)
  {
    if dayLow.Some? && dayLow.value < price then dayLow.value else price
  }

  /** One stock after the update with the given random factor, at time now. */
  function Updated(s: Stock, factor: real, now: int): (u: Stock)
    ensures u.symbol == s.symbol && u.name == s.name && u.volume == s.volume && u.exchange == s.exchange
    ensures u.previousClose == Some(s.currentPrice)
    ensures u.currentPrice == RoundHalfUp(s.currentPrice * (1.0 + factor), 2)
    ensures u.dayHigh == Some(NewDayHigh(s.dayHigh, u.currentPrice)) && u.dayLow == Some(NewDayLow(s.dayLow, u.currentPrice))
    ensures u.dayLow.Some? && u.dayHigh.Some? && u.dayLow.value <= u.currentPrice <= u.dayHigh.value
    ensures u.lastUpdated == now
  {
    var price := RoundHalfUp(s.currentPrice * (1.0 + factor), 2);
    s.(previousClose := Some(s.currentPrice), currentPrice := price,
       dayHigh := Some(NewDayHigh(s.dayHigh, price)), dayLow := Some(NewDayLow(s.dayLow, price)),
       lastUpdated := now)
  }

  /** The day range only widens: it still covers the old low and high. */
  lemma UpdateWidensDayRange(s: Stock, factor: real, now: int)
    ensures s.dayHigh.Some? ==> Updated(s, factor, now).dayHigh.value >= s.dayHigh.value
    ensures s.dayLow.Some? ==> Updated(s, factor, now).dayLow.value <= s.dayLow.value
  {
  }

  /**
   * `updateStockPrices`: every stock gets the update with its own random factor
   * (`factors`, one per symbol, standing for `Math.random() * 0.06 - 0.03`) and the
   * same time now. No stock is added or removed.
   */
  method UpdateStockPrices(db: Database, factors: map<string, real>, now: int)
    requires db.Valid()
    requires forall s :: s in db.stocks ==> s in factors
    modifies db
    ensures db.Valid()
    ensures db.stocks.Keys == old(db.stocks).Keys
    ensures forall s :: s in db.stocks ==> db.stocks[s] == Updated(old(db.stocks)[s], factors[s], now)
    ensures db.users == old(db.users) && db.portfolios == old(db.portfolios) && db.holdings == old(db.holdings)
      && db.news == old(db.news)
    ensures db.nextUserId == old(db.nextUserId) && db.nextPortfolioId == old(db.nextPortfolioId)
      && db.nextHoldingId == old(db.nextHoldingId) && db.nextNewsId == old(db.nextNewsId)
  {
    var todo := db.stocks.Keys;
    while todo != {}
      invariant todo <= db.stocks.Keys && db.stocks.Keys == old(db.stocks).Keys
      invariant db.Valid()
      invariant forall s :: s in db.stocks && s !in todo ==> db.stocks[s] == Updated(old(db.stocks)[s], factors[s], now)
      invariant forall s :: s in todo ==> db.stocks[s] == old(db.stocks)[s]
      invariant db.users == old(db.users) && db.portfolios == old(db.portfolios) && db.holdings == old(db.holdings)
        && db.news == old(db.news)
      invariant db.nextUserId == old(db.nextUserId) && db.nextPortfolioId == old(db.nextPortfolioId)
        && db.nextHoldingId == old(db.nextHoldingId) && db.nextNewsId == old(db.nextNewsId)
      decreases todo
    {
      var symbol :| symbol in todo;
      var stock := db.stocks[symbol];
      db.stocks := db.stocks[symbol := Updated(stock, factors[symbol], now)];
      todo := todo - {symbol};
    }
  }
}
