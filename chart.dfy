/**
 * The dashboard's pie chart over the user's portfolios: an allocation view (each
 * portfolio's current value, coloured from a fixed palette) and a performance
 * view (each portfolio's profit or loss, green or orange by sign), with their
 * tooltips and the empty state.
 */
module Chart {
  import opened Wrappers
  import opened Ui
  import DashboardPage

  /** The palette the allocation slices cycle through. */
  const Colors: seq<string> := ["#0088FE", "#00C49F", "#FFBB28", "#FF8042", "#8884D8", "#82CA9D", "#A4DE6C"]
  const GainColor := "#00C49F"
  const LossColor := "#FF8042"

  datatype Slice = Slice(name: string, value: real, color: string)

  /** No colour appears twice in the palette. */
  lemma ColorsDistinct()
    ensures |Colors| == 7
    ensures forall a, b :: 0 <= a < b < |Colors| ==> Colors[a] != Colors[b]
  {
  }

  /** `allocationData`: one slice per portfolio, in order, coloured by position. */
  function AllocationData(ps: seq<PortfolioCard>): (r: seq<Slice>)
    ensures |r| == |ps|
    ensures forall i :: 0 <= i < |r| ==> r[i].name == ps[i].name && r[i].value == ps[i].totalValue
    ensures forall i :: 0 <= i < |r| ==> r[i].color in Colors
  {
    seq(|ps|, i requires 0 <= i < |ps| => Slice(ps[i].name, ps[i].totalValue, ColorAt(i)))
  }

  /** The palette colour at position i. */
  function ColorAt(i: nat): string {
    Colors[i % |Colors|]
  }

  lemma NeighbourColorsDiffer(i: nat)
    ensures ColorAt(i) != ColorAt(i + 1)
  {
    ColorsDistinct();
    var a := i % 7;
    if a < 6 {
      assert (i + 1) % 7 == a + 1;
    } else {
      assert (i + 1) % 7 == 0;
    }
  }

  /**
   * Colours repeat every seven portfolios and neighbouring slices never share a
   * colour.
   */
  lemma AllocationColorsCycle(ps: seq<PortfolioCard>)
    ensures forall i :: 0 <= i < |ps| ==> AllocationData(ps)[i].color == ColorAt(i)
    ensures forall i :: 0 <= i < |ps| - 7 ==> AllocationData(ps)[i].color == AllocationData(ps)[i + 7].color
    ensures forall i :: 0 <= i < |ps| - 1 ==> AllocationData(ps)[i].color != AllocationData(ps)[i + 1].color
  {
    var r := AllocationData(ps);
    forall i | 0 <= i < |ps| - 7
      ensures r[i].color == r[i + 7].color
    {
      assert (i + 7) % 7 == i % 7;
    }
    forall i | 0 <= i < |ps| - 1
      ensures r[i].color != r[i + 1].color
    {
      NeighbourColorsDiffer(i);
    }
  }

  /** `performanceData`: one slice per portfolio, in order, valued at its profit or loss. */
  function PerformanceData(ps: seq<PortfolioCard>): (r: seq<Slice>)
    ensures |r| == |ps|
    ensures forall i :: 0 <= i < |r| ==> r[i].name == ps[i].name && r[i].value == ps[i].totalProfitLoss
    ensures forall i :: 0 <= i < |r| ==> (r[i].color == GainColor <==> r[i].value >= 0.0)
    ensures forall i :: 0 <= i < |r| ==> (r[i].color == LossColor <==> r[i].value < 0.0)
  {
    seq(|ps|, i requires 0 <= i < |ps| =>
      Slice(ps[i].name, ps[i].totalProfitLoss, if ps[i].totalProfitLoss >= 0.0 then GainColor else LossColor))
  }

  // ----- allocation tooltip -----

  /** The sum of the slices' values. */
  function SliceTotal(slices: seq<Slice>): real {
    if slices == [] then 0.0 else SliceTotal(slices[..|slices| - 1]) + slices[|slices| - 1].value
  }

  /** The allocation slices add up to the portfolios' total value. */
  lemma {:induction false} AllocationTotal(ps: seq<PortfolioCard>)
    ensures SliceTotal(AllocationData(ps)) == DashboardPage.TotalValue(ps)
  {
    if ps != [] {
      var n := |ps| - 1;
      AllocationTotal(ps[..n]);
      assert AllocationData(ps)[..n] == AllocationData(ps[..n]);
    }
  }

  /**
   * The allocation tooltip's share of a slice: its value over the sum of all
   * portfolios' values, as a percentage. The sum is not guarded; the share is only
   * defined when it is non-zero.
   */
  function Share(value: real, ps: seq<PortfolioCard>): real
    requires DashboardPage.TotalValue(ps) != 0.0
  {
    value / DashboardPage.TotalValue(ps) * 100.0
  }

  /** The sum of the tooltip shares of the slices. */
  function ShareTotal(slices: seq<Slice>, ps: seq<PortfolioCard>): real
    requires DashboardPage.TotalValue(ps) != 0.0
  {
    if slices == [] then 0.0 else ShareTotal(slices[..|slices| - 1], ps) + Share(slices[|slices| - 1].value, ps)
  }

  lemma {:induction false} ShareTotalScales(slices: seq<Slice>, ps: seq<PortfolioCard>)
    requires DashboardPage.TotalValue(ps) != 0.0
    ensures ShareTotal(slices, ps) == SliceTotal(slices) / DashboardPage.TotalValue(ps) * 100.0
  {
    if slices != [] {
      ShareTotalScales(slices[..|slices| - 1], ps);
    }
  }

  /** The shares shown over all allocation slices add up to 100%. */
  lemma AllocationSharesSumTo100(ps: seq<PortfolioCard>)
    requires DashboardPage.TotalValue(ps) != 0.0
    ensures ShareTotal(AllocationData(ps), ps) == 100.0
  {
    ShareTotalScales(AllocationData(ps), ps);
    AllocationTotal(ps);
  }

  // ----- performance tooltip -----

  /** `portfolios.find(p => p.name === name)`, as the index of the first portfolio with that name. */
  function FirstNamed(ps: seq<PortfolioCard>, name: string): (r: Option<nat>)
    ensures r.Some? ==> r.value < |ps| && ps[r.value].name == name
    ensures r.Some? ==> forall j :: 0 <= j < r.value ==> ps[j].name != name
    ensures r.None? ==> forall j :: 0 <= j < |ps| ==> ps[j].name != name
  {
    if ps == [] then None
    else if ps[0].name == name then Some(0)
    else match FirstNamed(ps[1..], name) {
      case None => None
      case Some(k) => Some(k + 1)
    }
  }

  /** The return line of the performance tooltip: the found portfolio's percentage, if any. */
  function PerformanceReturn(ps: seq<PortfolioCard>, slice: Slice): Option<real> {
    match FirstNamed(ps, slice.name) {
      case None => None
      case Some(k) => Some(ps[k].totalProfitLossPercentage)
    }
  }

  /**
   * Every performance slice's tooltip shows a return, taken from the first
   * portfolio bearing the slice's name: the slice's own portfolio when no earlier
   * portfolio has the same name, and possibly another one otherwise.
   */
  lemma PerformanceReturnOfSlice(ps: seq<PortfolioCard>, i: nat)
    requires i < |ps|
    ensures PerformanceReturn(ps, PerformanceData(ps)[i]).Some?
    ensures (forall j :: 0 <= j < i ==> ps[j].name != ps[i].name) ==>
      PerformanceReturn(ps, PerformanceData(ps)[i]) == Some(ps[i].totalProfitLossPercentage)
  {
    var k := FirstNamed(ps, ps[i].name);
    assert k.Some?;
  }

  // ----- view -----

  datatype ChartType = Allocation | Performance

  datatype ChartView =
    | EmptyState
    | Pie(title: string, slices: seq<Slice>)

  function Render(ps: seq<PortfolioCard>, chartType: ChartType): (v: ChartView)
    ensures v == EmptyState <==> |ps| == 0
    ensures v.Pie? ==> (v.slices == if chartType == Allocation then AllocationData(ps) else PerformanceData(ps))
    ensures v.Pie? ==> (v.title == if chartType == Allocation then "Portfolio Allocation" else "Portfolio Performance")
  {
    if |ps| == 0 then EmptyState
    else if chartType == Allocation then Pie("Portfolio Allocation", AllocationData(ps))
    else Pie("Portfolio Performance", PerformanceData(ps))
  }

  /** The chart's own state: which of the two views is selected. */
  class ChartPanel {
    var chartType: ChartType

    constructor ()
      ensures chartType == Allocation
    {
      chartType := Allocation;
    }

    /** The "Allocation" button. */
    method ShowAllocation()
      modifies this
      ensures chartType == Allocation
    {
      chartType := Allocation;
    }

    /** The "Performance" button. */
    method ShowPerformance()
      modifies this
      ensures chartType == Performance
    {
      chartType := Performance;
    }
  }
}
