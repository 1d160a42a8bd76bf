/**
  The price chart component (`StockChart`): the period code chosen on its
  buttons decides how many days are shown; one label per day and one mock
  price per label are built for the chart.

  Labels are modelled by the day they stand for (how many days before today);
  the locale date text is not part of the model. The random numbers the mock
  prices are drawn from are parameters.
*/
module StockChart {
  import opened Wrappers

  /** The codes on the period buttons, in the order they are shown. */
  const PeriodCodes: seq<string> := ["1mo", "3mo", "6mo", "1y"]

  /** Number of days shown for a period code: every code other than the three month codes shows a year. */
  function PeriodDays(period: string): (days: nat)
    ensures days == 30 <==> period == "1mo"
    ensures days == 90 <==> period == "3mo"
    ensures days == 180 <==> period == "6mo"
    ensures days == 365 <==> period != "1mo" && period != "3mo" && period != "6mo"
  {
    if period == "1mo" then 30
    else if period == "3mo" then 90
    else if period == "6mo" then 180
    else 365
  }

  /** A chart label: the date that many days before today. */
  datatype Label = DaysAgo(offset: nat)

  /** `Array.from({ length: days }, ...)`: label `i` is for `days - i` days ago. */
  function Labels(days: nat): (ls: seq<Label>)
    ensures |ls| == days
    ensures forall i :: 0 <= i < days ==> ls[i] == DaysAgo(days - i)
  {
    seq(days, i requires 0 <= i < days => DaysAgo(days - i))
  }

  /**
    The labels run strictly backwards from `days` days ago to yesterday: the
    offsets are strictly decreasing, all between 1 and `days`, and today
    (offset 0) is never among them.
  */
  lemma LabelsRunToYesterday(days: nat)
    ensures var ls := Labels(days);
      && (forall i, j :: 0 <= i < j < days ==> ls[i].offset > ls[j].offset)
      && (forall i :: 0 <= i < days ==> 1 <= ls[i].offset <= days)
      && DaysAgo(0) !in ls
      && (days > 0 ==> ls[0] == DaysAgo(days) && ls[days - 1] == DaysAgo(1))
  {
    var ls := Labels(days);
    forall i | 0 <= i < days ensures ls[i] != DaysAgo(0) {
      assert ls[i].offset == days - i;
    }
  }

  const Trend: real := 0.05
  const Volatility: real := 2.0

  /** The trend line the mock prices follow: `basePrice` rising by 5% over the period. */
  function TrendAt(basePrice: real, i: nat, days: nat): real
    requires days > 0
  {
    basePrice + basePrice * Trend * (i as real) / (days as real)
  }

  /**
    `labels.map(...)`: one price per label, the trend value plus noise from the
    random number `draw(i)` drawn for label `i`. The noise is within half the
    volatility of the trend when every draw lies in [0, 1).
  */
  function Prices(labels: seq<Label>, basePrice: real, draw: nat -> real): (ps: seq<real>)
    ensures |ps| == |labels|
    ensures forall i :: 0 <= i < |labels| && 0.0 <= draw(i) < 1.0 ==>
      -1.0 <= ps[i] - TrendAt(basePrice, i, |labels|) < 1.0
  {
    seq(|labels|, i requires 0 <= i < |labels| =>
      TrendAt(basePrice, i, |labels|) + (draw(i) - 0.5) * Volatility)
  }

  /** The one data series of the chart; `labelText` is its `label` option. */
  datatype Dataset = Dataset(labelText: string, data: seq<real>)

  datatype ChartData = ChartData(labels: seq<Label>, datasets: seq<Dataset>)

  /**
    The chart data built for a ticker and a period: one label per day of the
    period, and a single series named after the ticker with one price per label.
  */
  function BuildChart(ticker: string, period: string, basePrice: real, draw: nat -> real): (c: ChartData)
    ensures |c.labels| == PeriodDays(period) && c.labels == Labels(PeriodDays(period))
    ensures |c.datasets| == 1 && c.datasets[0].labelText == ticker
    ensures |c.datasets[0].data| == |c.labels|
  {
    var labels := Labels(PeriodDays(period));
    ChartData(labels, [Dataset(ticker, Prices(labels, basePrice, draw))])
  }

  class ChartView {
    const ticker: string
    var currentPeriod: string
    var loading: bool
    var chartData: Option<ChartData>

    /** `currentPeriod` is seeded from the `period` prop on mount, and only then. */
    constructor(ticker: string, period: string)
      ensures this.ticker == ticker && currentPeriod == period
      ensures loading && chartData.None?
    {
      this.ticker := ticker;
      currentPeriod := period;
      loading := true;
      chartData := None;
    }

    /**
      The effect run on mount and whenever `currentPeriod` changes. `r` is the
      random number the base price is drawn from, `draw` the ones for the noise.
    */
    method Load(r: real, draw: nat -> real)
      modifies this
      ensures chartData == Some(BuildChart(ticker, currentPeriod, 150.0 + r * 50.0, draw))
      ensures !loading && currentPeriod == old(currentPeriod)
    {
      loading := true;
      var days := if currentPeriod == "1mo" then 30
        else if currentPeriod == "3mo" then 90
        else if currentPeriod == "6mo" then 180
        else 365;
      var labels := Labels(days);
      var basePrice := 150.0 + r * 50.0;
      var prices := Prices(labels, basePrice, draw);
      chartData := Some(ChartData(labels, [Dataset(ticker, prices)]));
      loading := false;
    }

    /** A period button: it sets `currentPeriod` to its own code and changes nothing else. */
    method SelectPeriod(p: string)
      modifies this
      requires p in PeriodCodes
      ensures currentPeriod == p
      ensures loading == old(loading) && chartData == old(chartData)
    {
      currentPeriod := p;
    }
  }
}
