/** The price trend and the chart data built from a loaded price history
    (the `isPositive` decision and the `setChartData` argument). */
module Chart {
  import opened Catalog

  /** Line and point colour of a rising series. */
  const PositiveColor := "#10b981"
  /** Line and point colour of a series that does not rise. */
  const NegativeColor := "#ef4444"
  const PositiveFill := "linear-gradient(180deg, rgba(16,185,129,0.1) 0%, rgba(16,185,129,0.01) 100%)"
  const NegativeFill := "linear-gradient(180deg, rgba(239,68,68,0.1) 0%, rgba(239,68,68,0.01) 100%)"

  /** `prices[prices.length - 1] > prices[0]`. On an empty series both
      operands are `undefined` and the comparison is false. */
  function IsPositive(prices: seq<real>): (up: bool)
    ensures up ==> |prices| >= 2
    ensures |prices| > 0 ==> (up <==> prices[0] < prices[|prices| - 1])
    ensures |prices| > 0 && prices[0] == prices[|prices| - 1] ==> !up
  {
    |prices| > 0 && prices[|prices| - 1] > prices[0]
  }

  /** The colour for the line and its points. */
  function TrendColor(prices: seq<real>): (color: string)
    ensures color == PositiveColor <==> IsPositive(prices)
    ensures color == NegativeColor <==> !IsPositive(prices)
  {
    if IsPositive(prices) then PositiveColor else NegativeColor
  }

  /** The area fill under the line. */
  function TrendFill(prices: seq<real>): (fill: string)
    ensures fill == PositiveFill <==> IsPositive(prices)
    ensures fill == NegativeFill <==> !IsPositive(prices)
  {
    if IsPositive(prices) then PositiveFill else NegativeFill
  }

  /** The parts of the chart's data that depend on the fetched series and the
      selected company; the fixed styling numbers are not modelled. */
  datatype ChartData = ChartData(
    labels: seq<string>,
    seriesLabel: string,
    data: seq<real>,
    borderColor: string,
    backgroundColor: string,
    pointBackgroundColor: string)

  /** `${selected.name} (${selected.symbol})`. */
  function DatasetLabel(c: Company): (s: string)
    ensures |s| == |c.name| + |c.symbol| + 3
    ensures s[..|c.name|] == c.name
    ensures s[|s| - |c.symbol| - 1..|s| - 1] == c.symbol
    ensures s[|c.name|..|c.name| + 2] == " (" && s[|s| - 1] == ')'
  {
    c.name + " (" + c.symbol + ")"
  }

  /** The chart data committed after a successful load: the dates label the
      x axis, the prices are the series, and the three trend-dependent
      colours agree with the trend. */
  function MakeChartData(c: Company, dates: seq<string>, prices: seq<real>): (d: ChartData)
    ensures d.labels == dates && d.data == prices
    ensures d.seriesLabel == DatasetLabel(c)
    ensures d.borderColor == d.pointBackgroundColor
    ensures d.borderColor == PositiveColor <==> IsPositive(prices)
    ensures d.borderColor == NegativeColor <==> !IsPositive(prices)
    ensures d.backgroundColor == PositiveFill <==> IsPositive(prices)
    ensures d.backgroundColor == NegativeFill <==> !IsPositive(prices)
  {
    var color := TrendColor(prices);
    ChartData(dates, DatasetLabel(c), prices, color, TrendFill(prices), color)
  }
}
