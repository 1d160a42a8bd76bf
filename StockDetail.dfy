/**
  The stock detail page (`StockDetail`): the company name shown for a ticker,
  the gain/loss styling of the day's change, and the period buttons under
  the chart.

  The page's other figures are random mock values and are not modelled; the
  one-second timer that delivers them is modelled as the single step
  `DataArrived`.
*/
module StockDetail {
  import opened Wrappers
  import StockChart

  /** The company table of `getTickerNameMock`. */
  const Companies: map<string, string> := map[
    "AAPL" := "Apple Inc.",
    "MSFT" := "Microsoft Corporation",
    "GOOGL" := "Alphabet Inc.",
    "AMZN" := "Amazon.com Inc.",
    "META" := "Meta Platforms, Inc.",
    "TSLA" := "Tesla, Inc.",
    "NVDA" := "NVIDIA Corporation"
  ]

  /**
    `companies[ticker] || `${ticker} Inc.``: the table entry when there is a
    non-empty one, otherwise the ticker followed by " Inc.". The result is
    never empty.
  */
  function TickerName(ticker: string): (name: string)
    ensures ticker in Companies ==> name == Companies[ticker]
    ensures ticker !in Companies ==> name == ticker + " Inc."
    ensures |name| > 0
  {
    var found := if ticker in Companies then Companies[ticker] else "";
    if found != "" then found else ticker + " Inc."
  }

  /** The seven table tickers get their fixed names. */
  lemma TableNames()
    ensures TickerName("AAPL") == "Apple Inc."
    ensures TickerName("MSFT") == "Microsoft Corporation"
    ensures TickerName("GOOGL") == "Alphabet Inc."
    ensures TickerName("AMZN") == "Amazon.com Inc."
    ensures TickerName("META") == "Meta Platforms, Inc."
    ensures TickerName("TSLA") == "Tesla, Inc."
    ensures TickerName("NVDA") == "NVIDIA Corporation"
  {
  }

  /** The lookup is case-sensitive: a lower-case ticker falls back to the generic name. */
  lemma LookupIsCaseSensitive()
    ensures TickerName("aapl") == "aapl Inc."
  {
    assert "aapl" !in Companies;
  }

  /** `parseFloat(change) >= 0`: zero counts as a gain. */
  predicate IsGain(change: real) {
    change >= 0.0
  }

  /** Which way an arrow icon points. */
  datatype Direction = Up | Down

  /** How the day's change is shown: the text colour class and the arrow icon. */
  datatype ChangeStyle = ChangeStyle(color: string, arrow: Direction)

  const GainColor: string := "text-green-500"
  const LossColor: string := "text-red-500"

  /**
    The styling as the page draws it. The icon drawn for a gain has its shaft
    from y = 7 down to y = 12.586 and its head below that, so it points down;
    the icon drawn for a loss is its mirror image and points up.
  */
  function ChangeStyleAsDrawn(change: real): (s: ChangeStyle)
    ensures s.color == GainColor <==> IsGain(change)
    ensures s.arrow == Down <==> IsGain(change)
  {
    if IsGain(change) then ChangeStyle(GainColor, Down) else ChangeStyle(LossColor, Up)
  }

  /** A zero change is coloured as a gain but drawn with a downward arrow. */
  lemma GainDrawnWithDownArrow()
    ensures IsGain(0.0) && ChangeStyleAsDrawn(0.0) == ChangeStyle(GainColor, Down)
  {
  }

  /** The styling as intended: green with an up arrow for a gain, red with a down arrow for a loss. */
  function ChangeStyleFor(change: real): (s: ChangeStyle)
    ensures s.color == GainColor <==> IsGain(change)
    ensures s.color == LossColor <==> !IsGain(change)
    ensures s.arrow == Up <==> IsGain(change)
  {
    if IsGain(change) then ChangeStyle(GainColor, Up) else ChangeStyle(LossColor, Down)
  }

  /** Colour and arrow agree under the intended styling: green goes with up, red with down. */
  lemma ColorMatchesArrow(change: real)
    ensures ChangeStyleFor(change).color == GainColor <==> ChangeStyleFor(change).arrow == Up
    ensures ChangeStyleFor(change).arrow != ChangeStyleAsDrawn(change).arrow
  {
  }

  class DetailView {
    const ticker: string
    var timePeriod: string
    var loading: bool
    var name: Option<string>

    constructor(ticker: string)
      ensures this.ticker == ticker
      ensures timePeriod == "1mo" && loading && name.None?
    {
      this.ticker := ticker;
      timePeriod := "1mo";
      loading := true;
      name := None;
    }

    /** The timer callback: the mock data arrives, with the company name for the ticker. */
    method DataArrived()
      modifies this
      ensures name == Some(TickerName(ticker))
      ensures !loading && timePeriod == old(timePeriod)
    {
      name := Some(TickerName(ticker));
      loading := false;
    }

    /** A period button under the chart: it sets `timePeriod` to its own code and changes nothing else. */
    method SelectPeriod(p: string)
      modifies this
      requires p in StockChart.PeriodCodes
      ensures timePeriod == p
      ensures loading == old(loading) && name == old(name)
    {
      timePeriod := p;
    }
  }
}
