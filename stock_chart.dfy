/**
 * The price chart of a stock page. It has no price history to fetch, so it makes
 * up a series: one point per day of the selected range, around a base price
 * derived from the symbol. It then shows the change from the first point to the
 * last. The browser's random numbers and today's date are parameters.
 */
module StockChart {
  import opened Wrappers
  import opened Text
  import opened Rounding

  datatype TimeRange = OneDay | OneWeek | OneMonth | ThreeMonths | OneYear | FiveYears

  /** The range buttons, in the order shown. */
  const Ranges: seq<TimeRange> := [OneDay, OneWeek, OneMonth, ThreeMonths, OneYear, FiveYears]

  /** The number of days a range goes back. */
  function Days(range: TimeRange): (d: nat)
    ensures d >= 1
    ensures range == OneDay ==> d == 1
    ensures range == OneWeek ==> d == 7
    ensures range == OneMonth ==> d == 30
    ensures range == ThreeMonths ==> d == 90
    ensures range == OneYear ==> d == 365
    ensures range == FiveYears ==> d == 1825
  {
    match range
    case OneDay => 1
    case OneWeek => 7
    case OneMonth => 30
    case ThreeMonths => 90
    case OneYear => 365
    case FiveYears => 365 * 5
  }

  /** Each button goes further back than the one before it. */
  lemma RangesGrow()
    ensures forall i, j :: 0 <= i < j < |Ranges| ==> Days(Ranges[i]) < Days(Ranges[j])
  {
  }

  /** The sum of the symbol's character codes modulo 200, plus 50. */
  function BasePrice(symbol: string): (p: nat)
    ensures 50 <= p <= 249
  {
    CodeSum(symbol) % 200 + 50
  }

  /** How far the noise may move a price: half a percent over one day, two percent otherwise. */
  function Volatility(range: TimeRange): real {
    if range == OneDay then 0.005 else 0.02
  }

  /** How much higher the oldest point sits than the newest, before noise. */
  function Trend(range: TimeRange): real {
    if range == OneYear || range == FiveYears then 0.2 else 0.05
  }

  /**
   * The price of the point `back` days before today, from one random number in
   * [0, 1), kept to two decimals (`parseFloat(price.toFixed(2))`).
   */
  function PointPrice(range: TimeRange, base: nat, back: nat, random: real): real {
    Price(base as real, Factor(range, back, random))
  }

  /** A base price scaled by a factor, to two decimals. */
  function Price(base: real, f: real): real {
    RoundHalfUp(base * f, 2)
  }

  /** `1 + randomFactor + trendFactor * trend`, the factor applied to the base price. */
  function Factor(range: TimeRange, back: nat, random: real): real {
    var randomFactor := (random - 0.5) * 2.0 * Volatility(range);
    var trendFactor := back as real / Days(range) as real;
    1.0 + randomFactor + trendFactor * Trend(range)
  }

  /** A point of the series: its day (days since an arbitrary epoch) and its price. */
  datatype DataPoint = DataPoint(day: int, price: real)

  /** Random numbers as `Math.random()` draws them. */
  predicate Draws(random: seq<real>) {
    forall k :: 0 <= k < |random| ==> 0.0 <= random[k] < 1.0
  }

  /** The series `generateMockData` builds: point k is `Days - k` days back, drawing the k-th random number. */
  function MockSeries(range: TimeRange, symbol: string, today: int, random: seq<real>): seq<DataPoint>
    requires |random| == Days(range) + 1
  {
    seq(Days(range) + 1, k requires 0 <= k <= Days(range) =>
      DataPoint(today - (Days(range) - k), PointPrice(range, BasePrice(symbol), Days(range) - k, random[k])))
  }

  /** `generateMockData`: counts down from `days` to 0 days back, appending a point each time. */
  method GenerateMockData(range: TimeRange, symbol: string, today: int, random: seq<real>) returns (data: seq<DataPoint>)
    requires |random| == Days(range) + 1
    ensures data == MockSeries(range, symbol, today, random)
  {
    var days := Days(range);
    var basePrice := BasePrice(symbol);
    data := [];
    var i: int := days;
    while i >= 0
      invariant -1 <= i <= days
      invariant |data| == days - i
      invariant forall k :: 0 <= k < |data| ==>
        data[k] == DataPoint(today - (days - k), PointPrice(range, basePrice, days - k, random[k]))
    {
      data := data + [DataPoint(today - i, PointPrice(range, basePrice, i, random[days - i]))];
      i := i - 1;
    }
  }

  /**
   * The series has one point per day of the range plus today, runs day by day
   * from the oldest to today, and starts `Days` days back.
   */
  lemma MockSeriesShape(range: TimeRange, symbol: string, today: int, random: seq<real>)
    requires |random| == Days(range) + 1
    ensures |MockSeries(range, symbol, today, random)| == Days(range) + 1
    ensures MockSeries(range, symbol, today, random)[0].day == today - Days(range)
    ensures MockSeries(range, symbol, today, random)[Days(range)].day == today
    ensures forall k :: 0 <= k < Days(range) ==>
      MockSeries(range, symbol, today, random)[k + 1].day == MockSeries(range, symbol, today, random)[k].day + 1
  {
  }

  lemma FactorBounds(range: TimeRange, back: nat, random: real)
    requires back <= Days(range) && 0.0 <= random < 1.0
    ensures 0.98 <= Factor(range, back, random) < 1.22
  {
    var v := Volatility(range);
    var t := back as real / Days(range) as real;
    assert 0.0 <= t <= 1.0;
    assert -v <= (random - 0.5) * 2.0 * v < v;
    assert 0.0 <= t * Trend(range) <= Trend(range);
  }

  lemma ScaledBounds(base: real, f: real)
    requires 50.0 <= base <= 249.0 && 0.98 <= f < 1.22
    ensures 49.0 <= base * f < 303.78
  {
    assert base * f >= 50.0 * f;
    assert base * f <= 249.0 * f;
  }

  /** Rounding to cents moves a value by at most half a cent. */
  lemma CentsClose(x: real)
    ensures x - 0.005 <= RoundHalfUp(x, 2) <= x + 0.005
  {
    assert Pow10(2) == 100;
  }

  lemma RoundedBounds(base: real, f: real)
    requires 50.0 <= base <= 249.0 && 0.98 <= f < 1.22
    ensures 48.995 <= Price(base, f) <= 303.785
  {
    ScaledBounds(base, f);
    CentsClose(base * f);
  }

  /** Every generated price lies between 48.995 and 303.785, so none is zero or negative. */
  lemma PointPriceBounds(range: TimeRange, base: nat, back: nat, random: real)
    requires 50 <= base <= 249
    requires back <= Days(range) && 0.0 <= random < 1.0
    ensures 48.995 <= PointPrice(range, base, back, random) <= 303.785
  {
    FactorBounds(range, back, random);
    RoundedBounds(base as real, Factor(range, back, random));
  }

  // ----- the change shown above the chart -----

  datatype PriceChange = PriceChange(change: real, percentage: real)

  /**
   * `calculatePriceChange`: nothing for fewer than two points, else the last
   * price minus the first and that change as a percentage of the first price.
   * The first price is not checked; the percentage is only defined when it is
   * non-zero.
   */
  function CalculatePriceChange(data: seq<DataPoint>): (r: PriceChange)
    requires |data| < 2 || data[0].price != 0.0
    ensures |data| < 2 ==> r == PriceChange(0.0, 0.0)
    ensures |data| >= 2 ==> r.change == data[|data| - 1].price - data[0].price
    ensures |data| >= 2 ==> r.percentage * data[0].price == r.change * 100.0
  {
    if |data| < 2 then PriceChange(0.0, 0.0)
    else
      var change := data[|data| - 1].price - data[0].price;
      PriceChange(change, change / data[0].price * 100.0)
  }

  /** `isPositive`: a zero change counts as positive. */
  predicate IsPositive(c: PriceChange) {
    c.change >= 0.0
  }

  function LineColor(c: PriceChange): string {
    if IsPositive(c) then "#16a34a" else "#dc2626"
  }

  function SignPrefix(c: PriceChange): string {
    if IsPositive(c) then "+" else ""
  }

  /** With a positive first price the percentage has the change's sign. */
  lemma ChangeSign(data: seq<DataPoint>)
    requires |data| >= 2 && data[0].price > 0.0
    ensures IsPositive(CalculatePriceChange(data)) <==> CalculatePriceChange(data).percentage >= 0.0
  {
    var c := CalculatePriceChange(data);
    var first := data[0].price;
    assert c.percentage * first == c.change * 100.0;
    if c.percentage < 0.0 {
      assert c.percentage * first < 0.0;
    }
    if c.percentage >= 0.0 {
      assert c.percentage * first >= 0.0;
    }
  }

  /**
   * For a generated series the first price is positive, so the change is always
   * defined, and the percentage has the change's sign: the sign prefix and line
   * colour agree with both numbers.
   */
  lemma GeneratedChange(range: TimeRange, symbol: string, today: int, random: seq<real>)
    requires |random| == Days(range) + 1 && Draws(random)
    ensures MockSeries(range, symbol, today, random)[0].price > 0.0
    ensures IsPositive(CalculatePriceChange(MockSeries(range, symbol, today, random)))
      <==> CalculatePriceChange(MockSeries(range, symbol, today, random)).percentage >= 0.0
  {
    var data := MockSeries(range, symbol, today, random);
    PointPriceBounds(range, BasePrice(symbol), Days(range), random[0]);
    assert data[0].price == PointPrice(range, BasePrice(symbol), Days(range), random[0]);
    ChangeSign(data);
  }

  // ----- component state -----

  class StockChartView {
    var timeRange: TimeRange
    var data: seq<DataPoint>
    var isLoading: bool
    var error: Option<string>

    constructor ()
      ensures timeRange == OneMonth && data == [] && isLoading && error.None?
    {
      timeRange := OneMonth;
      data := [];
      isLoading := true;
      error := None;
    }

    /** A range button. */
    method SelectRange(range: TimeRange)
      modifies this
      ensures timeRange == range && data == old(data) && isLoading == old(isLoading) && error == old(error)
    {
      timeRange := range;
    }

    /** The effect run on mount and whenever the symbol or range changes. */
    method Refresh(symbol: string, today: int, random: seq<real>)
      requires |random| == Days(timeRange) + 1
      modifies this
      ensures timeRange == old(timeRange)
      ensures data == MockSeries(timeRange, symbol, today, random)
      ensures !isLoading && error.None?
    {
      isLoading := true;
      error := None;
      data := GenerateMockData(timeRange, symbol, today, random);
      isLoading := false;
    }
  }
}
