/**
  The stock analysis tool of the agent back end (`StockAnalysisTool._run`).

  The tool reads a free-text query of the form `ticker=AAPL, period=6mo` with
  the regular expression `ticker=(\w+),?\s*period=([\w\d]+)` (searched
  anywhere in the query), fetches the price history for that ticker and period,
  and turns a handful of comparisons on that history into a HOLD / BUY / SELL
  recommendation with a numbered list of reasons.

  The price arithmetic (moving averages, RSI, percentage change) is floating
  point done by a data library; here each comparison the tool makes is an
  abstract signal, so that the recommendation rules and the report layout are
  exact.
*/
module StockTools {
  import opened Wrappers

  // ---------------------------------------------------------------------
  // Character classes and literals of the query pattern
  // ---------------------------------------------------------------------

  /** `\w`, restricted to ASCII: letters, digits and the underscore. */
  predicate IsWordChar(c: char) {
    ('a' <= c <= 'z') || ('A' <= c <= 'Z') || ('0' <= c <= '9') || c == '_'
  }

  /**
    `\s` on a text pattern, restricted to ASCII: space, tab, line feed,
    vertical tab, form feed, carriage return, and the four separators
    U+001C to U+001F, which `str.isspace` also accepts.
  */
  predicate IsSpaceChar(c: char) {
    c == ' ' || ('\t' <= c <= '\r') || ('\U{1C}' <= c <= '\U{1F}')
  }

  const TickerKey: string := "ticker="
  const PeriodKey: string := "period="

  /** `lit` occurs in `q` starting at position `j`. */
  predicate HasAt(q: string, j: nat, lit: string) {
    j + |lit| <= |q| && forall k :: 0 <= k < |lit| ==> q[j + k] == lit[k]
  }

  /** Position `e` ends a run of word characters: nothing, or a non-word character, follows. */
  predicate EndsWord(q: string, e: nat) {
    e == |q| || (e < |q| && !IsWordChar(q[e]))
  }

  /** Length of the longest run of word characters starting at `j` (what a greedy `\w+` takes first). */
  function WordRun(q: string, j: nat): (n: nat)
    requires j <= |q|
    ensures j + n <= |q|
    ensures EndsWord(q, j + n)
    decreases |q| - j
  {
    if j < |q| && IsWordChar(q[j]) then 1 + WordRun(q, j + 1) else 0
  }

  /** Every character of the run `WordRun` measures is a word character. */
  lemma {:induction false} WordRunChars(q: string, j: nat)
    requires j <= |q|
    ensures forall k :: j <= k < j + WordRun(q, j) ==> IsWordChar(q[k])
    decreases |q| - j
  {
    if j < |q| && IsWordChar(q[j]) {
      WordRunChars(q, j + 1);
    }
  }

  /** Length of the longest run of whitespace starting at `j` (what a greedy `\s*` takes first). */
  function SpaceRun(q: string, j: nat): (n: nat)
    requires j <= |q|
    ensures j + n <= |q|
    ensures j + n == |q| || !IsSpaceChar(q[j + n])
    decreases |q| - j
  {
    if j < |q| && IsSpaceChar(q[j]) then 1 + SpaceRun(q, j + 1) else 0
  }

  /** Every character of the run `SpaceRun` measures is whitespace. */
  lemma {:induction false} SpaceRunChars(q: string, j: nat)
    requires j <= |q|
    ensures forall k :: j <= k < j + SpaceRun(q, j) ==> IsSpaceChar(q[k])
    decreases |q| - j
  {
    if j < |q| && IsSpaceChar(q[j]) {
      SpaceRunChars(q, j + 1);
    }
  }

  // ---------------------------------------------------------------------
  // What a match of the pattern is (the reference definition)
  // ---------------------------------------------------------------------

  /** `q[a..b]` is a non-empty run of word characters: what `(\w+)` and `([\w\d]+)` accept. */
  ghost predicate WordSpan(q: string, a: nat, b: nat) {
    a < b <= |q| && forall k :: a <= k < b ==> IsWordChar(q[k])
  }

  /** `q[a..b]` is only whitespace: what `\s*` accepts. */
  ghost predicate SpaceSpan(q: string, a: nat, b: nat) {
    a <= b <= |q| && forall k :: a <= k < b ==> IsSpaceChar(q[k])
  }

  /** `q[a..b]` is what `,?\s*` accepts: an optional comma followed by whitespace. */
  ghost predicate SeparatorSpan(q: string, a: nat, b: nat) {
    SpaceSpan(q, a, b) || (a < b <= |q| && q[a] == ',' && SpaceSpan(q, a + 1, b))
  }

  /**
    The pattern matches `q[i..e]`: `ticker=` at `i`, the ticker group
    `q[i + 7..a]`, the separator `q[a..b]`, `period=` at `b` and the period
    group `q[b + 7..e]`.
  */
  ghost predicate MatchesAt(q: string, i: nat, a: nat, b: nat, e: nat) {
    && HasAt(q, i, TickerKey)
    && WordSpan(q, i + |TickerKey|, a)
    && SeparatorSpan(q, a, b)
    && HasAt(q, b, PeriodKey)
    && WordSpan(q, b + |PeriodKey|, e)
  }

  // ---------------------------------------------------------------------
  // The matcher, written the way a backtracking regex engine runs it
  // ---------------------------------------------------------------------

  /** A successful search: where the match starts and where the ticker group, the separator and the match end. */
  datatype Span = Span(start: nat, tickerEnd: nat, sepEnd: nat, end: nat)

  /**
    `\s*period=([\w\d]+)` at position `j`, giving where `period=` starts and
    where the match ends. The greedy `\s*` takes every whitespace character;
    giving some back cannot help, because `period=` does not start with
    whitespace. The last group takes the longest word run.
  */
  function MatchPeriod(q: string, j: nat): Option<(nat, nat)>
    requires j <= |q|
  {
    var b := j + SpaceRun(q, j);
    var g := b + |PeriodKey|;
    if HasAt(q, b, PeriodKey) && WordRun(q, g) > 0 then Some((b, g + WordRun(q, g))) else None
  }

  /** `,?\s*period=([\w\d]+)` at position `j`; the greedy `,?` tries the comma first. */
  function MatchTail(q: string, j: nat): Option<(nat, nat)>
    requires j <= |q|
  {
    if j < |q| && q[j] == ',' && MatchPeriod(q, j + 1).Some? then MatchPeriod(q, j + 1)
    else MatchPeriod(q, j)
  }

  /**
    `(\w+)` followed by the tail, at position `j`, where `n` word characters
    are available: the greedy group tries lengths `n`, `n - 1`, ..., 1 and
    keeps the first for which the rest of the pattern matches.
  */
  function MatchTicker(q: string, j: nat, n: nat): Option<(nat, nat, nat)>
    requires j + n <= |q|
    decreases n
  {
    if n == 0 then None
    else
      match MatchTail(q, j + n)
      case Some((b, e)) => Some((j + n, b, e))
      case None => MatchTicker(q, j, n - 1)
  }

  /** The whole pattern anchored at position `i`. */
  function MatchAt(q: string, i: nat): Option<Span>
    requires i <= |q|
  {
    var j := i + |TickerKey|;
    if HasAt(q, i, TickerKey) then
      match MatchTicker(q, j, WordRun(q, j))
      case Some((a, b, e)) => Some(Span(i, a, b, e))
      case None => None
    else None
  }

  // ---------------------------------------------------------------------
  // What the matcher finds is a match
  // ---------------------------------------------------------------------

  lemma MatchPeriodSound(q: string, j: nat)
    requires j <= |q|
    ensures MatchPeriod(q, j).Some? ==> var (b, e) := MatchPeriod(q, j).value;
      SpaceSpan(q, j, b) && HasAt(q, b, PeriodKey) && WordSpan(q, b + |PeriodKey|, e) && EndsWord(q, e)
  {
    SpaceRunChars(q, j);
    var b := j + SpaceRun(q, j);
    if b + |PeriodKey| <= |q| {
      WordRunChars(q, b + |PeriodKey|);
    }
  }

  lemma MatchTailSound(q: string, j: nat)
    requires j <= |q|
    ensures MatchTail(q, j).Some? ==> var (b, e) := MatchTail(q, j).value;
      SeparatorSpan(q, j, b) && HasAt(q, b, PeriodKey) && WordSpan(q, b + |PeriodKey|, e) && EndsWord(q, e)
  {
    MatchPeriodSound(q, j);
    if j < |q| {
      MatchPeriodSound(q, j + 1);
    }
  }

  /** The greedy group stops at a length `a - j` in `1..n` after which the rest of the pattern matches. */
  lemma {:induction false} MatchTickerSound(q: string, j: nat, n: nat)
    requires j + n <= |q|
    ensures MatchTicker(q, j, n).Some? ==> var (a, b, e) := MatchTicker(q, j, n).value;
      j < a <= j + n && MatchTail(q, a) == Some((b, e))
    decreases n
  {
    if n > 0 && MatchTail(q, j + n).None? {
      MatchTickerSound(q, j, n - 1);
    }
  }

  /** What the anchored matcher returns is a match starting at `i` whose period group cannot be extended. */
  lemma MatchAtSound(q: string, i: nat)
    requires i <= |q|
    ensures MatchAt(q, i).Some? ==> var m := MatchAt(q, i).value;
      m.start == i && MatchesAt(q, i, m.tickerEnd, m.sepEnd, m.end) && EndsWord(q, m.end)
  {
    var j := i + |TickerKey|;
    if HasAt(q, i, TickerKey) {
      MatchTickerSound(q, j, WordRun(q, j));
      if MatchTicker(q, j, WordRun(q, j)).Some? {
        var (a, b, e) := MatchTicker(q, j, WordRun(q, j)).value;
        WordRunChars(q, j);
        MatchTailSound(q, a);
        assert WordSpan(q, j, a);
      }
    }
  }

  /** The anchored matcher tried at every position of the query, from `0` to `|q|` inclusive. */
  function Attempts(q: string): (s: seq<Option<Span>>)
    ensures |s| == |q| + 1
  {
    seq(|q| + 1, k requires 0 <= k <= |q| => MatchAt(q, k))
  }

  /** The first index from `i` on that holds a result, or `|s|` when none does. */
  function FirstHit(s: seq<Option<Span>>, i: nat): (k: nat)
    requires i <= |s|
    ensures i <= k <= |s|
    ensures k < |s| ==> s[k].Some?
    ensures forall j :: i <= j < k ==> s[j].None?
    decreases |s| - i
  {
    if i == |s| || s[i].Some? then i else FirstHit(s, i + 1)
  }

  /** `re.search`: the anchored matcher's result at the first position where it succeeds. */
  function Search(q: string): Option<Span> {
    var k := FirstHit(Attempts(q), 0);
    if k <= |q| then MatchAt(q, k) else None
  }

  // ---------------------------------------------------------------------
  // The matcher finds every match the reference definition admits
  // ---------------------------------------------------------------------

  lemma {:induction false} SpaceRunUpTo(q: string, j: nat, b: nat)
    requires SpaceSpan(q, j, b) && b < |q| && !IsSpaceChar(q[b])
    ensures SpaceRun(q, j) == b - j
    decreases b - j
  {
    if j < b {
      SpaceRunUpTo(q, j + 1, b);
    }
  }

  lemma {:induction false} WordRunAtLeast(q: string, j: nat, e: nat)
    requires j <= e <= |q| && forall k :: j <= k < e ==> IsWordChar(q[k])
    ensures WordRun(q, j) >= e - j
    decreases e - j
  {
    if j < e {
      WordRunAtLeast(q, j + 1, e);
    }
  }

  lemma MatchPeriodComplete(q: string, j: nat, b: nat, e: nat)
    requires SpaceSpan(q, j, b) && HasAt(q, b, PeriodKey) && WordSpan(q, b + |PeriodKey|, e)
    ensures MatchPeriod(q, j).Some?
  {
    assert q[b + 0] == PeriodKey[0];
    SpaceRunUpTo(q, j, b);
    WordRunAtLeast(q, b + |PeriodKey|, e);
  }

  /** Whitespace up to `period=` holds no comma at its start. */
  lemma NoCommaBeforePeriod(q: string, j: nat, b: nat)
    requires SpaceSpan(q, j, b) && HasAt(q, b, PeriodKey)
    ensures j < |q| && q[j] != ','
  {
    if j == b {
      assert q[b + 0] == PeriodKey[0];
    }
  }

  lemma MatchTailComplete(q: string, j: nat, b: nat, e: nat)
    requires SeparatorSpan(q, j, b) && HasAt(q, b, PeriodKey) && WordSpan(q, b + |PeriodKey|, e)
    ensures MatchTail(q, j).Some?
  {
    if SpaceSpan(q, j, b) {
      NoCommaBeforePeriod(q, j, b);
      MatchPeriodComplete(q, j, b, e);
    } else {
      MatchPeriodComplete(q, j + 1, b, e);
    }
  }

  lemma {:induction false} MatchTickerComplete(q: string, j: nat, n: nat, m: nat)
    requires j + n <= |q|
    requires 1 <= m <= n && MatchTail(q, j + m).Some?
    ensures MatchTicker(q, j, n).Some?
    decreases n
  {
    if n > m && MatchTail(q, j + n).None? {
      MatchTickerComplete(q, j, n - 1, m);
    }
  }

  /** Whenever the pattern matches at `i`, the anchored matcher succeeds there. */
  lemma MatchAtComplete(q: string, i: nat, a: nat, b: nat, e: nat)
    requires MatchesAt(q, i, a, b, e)
    ensures MatchAt(q, i).Some?
  {
    var j := i + |TickerKey|;
    WordRunAtLeast(q, j, a);
    MatchTailComplete(q, a, b, e);
    MatchTickerComplete(q, j, WordRun(q, j), a - j);
    assert HasAt(q, i, TickerKey) && MatchTicker(q, j, WordRun(q, j)).Some?;
  }

  // ---------------------------------------------------------------------
  // The ticker group is determined by the starting position
  // ---------------------------------------------------------------------

  /** What may follow a ticker group: a comma, whitespace, or the `p` of `period=`. */
  lemma SeparatorStart(q: string, a: nat, b: nat)
    requires SeparatorSpan(q, a, b) && HasAt(q, b, PeriodKey)
    ensures a < |q| && (q[a] == ',' || IsSpaceChar(q[a]) || q[a] == 'p')
  {
    if a == b {
      assert q[b + 0] == PeriodKey[0];
    }
  }

  /**
    If a match at `i` ends its ticker group at `a1`, a longer run of word
    characters from the same place ends inside the `period` that follows, so
    the character after it is a letter of `eriod` or `=`.
  */
  lemma LongerTickerBlocked(q: string, i: nat, a1: nat, b1: nat, e1: nat, a2: nat)
    requires MatchesAt(q, i, a1, b1, e1) && a1 < a2 && WordSpan(q, i + |TickerKey|, a2)
    ensures a2 < |q| && q[a2] != ',' && !IsSpaceChar(q[a2]) && q[a2] != 'p'
  {
    // the character after the shorter ticker is a word character: no separator, `period=` follows at once
    assert IsWordChar(q[a1]);
    assert b1 == a1;
    assert q[b1 + 6] == PeriodKey[6];
    // the `=` ends every run of word characters through `period`
    assert a2 <= a1 + 6;
    var d := a2 - a1;
    assert q[a1 + d] == PeriodKey[d];
  }

  /** Two matches at the same position have the same ticker group. */
  lemma TickerUnique(q: string, i: nat, a1: nat, b1: nat, e1: nat, a2: nat, b2: nat, e2: nat)
    requires MatchesAt(q, i, a1, b1, e1) && MatchesAt(q, i, a2, b2, e2)
    ensures a1 == a2
  {
    if a1 < a2 {
      LongerTickerBlocked(q, i, a1, b1, e1, a2);
      SeparatorStart(q, a2, b2);
    } else if a2 < a1 {
      LongerTickerBlocked(q, i, a2, b2, e2, a1);
      SeparatorStart(q, a1, b1);
    }
  }

  /**
    What `re.search` returns, in terms of the reference definition: no match
    exactly when the pattern matches nowhere; otherwise the leftmost position at
    which it matches, the only ticker group possible there, and the longest
    period group.
  */
  lemma SearchCorrect(q: string)
    ensures Search(q).None? <==> forall i: nat, a: nat, b: nat, e: nat :: !MatchesAt(q, i, a, b, e)
    ensures Search(q).Some? ==>
      var m := Search(q).value;
      && MatchesAt(q, m.start, m.tickerEnd, m.sepEnd, m.end)
      && EndsWord(q, m.end)
      && (forall i: nat, a: nat, b: nat, e: nat :: i < m.start ==> !MatchesAt(q, i, a, b, e))
      && (forall a: nat, b: nat, e: nat :: MatchesAt(q, m.start, a, b, e) ==> a == m.tickerEnd)
  {
    forall i: nat, a: nat, b: nat, e: nat | MatchesAt(q, i, a, b, e)
      ensures Search(q).Some? && Search(q).value.start <= i
    {
      MatchAtComplete(q, i, a, b, e);
      assert Attempts(q)[i] == MatchAt(q, i);
      var k := FirstHit(Attempts(q), 0);
      assert Attempts(q)[k] == MatchAt(q, k);
      MatchAtSound(q, k);
    }
    if Search(q).Some? {
      var m := Search(q).value;
      var k := FirstHit(Attempts(q), 0);
      MatchAtSound(q, k);
      forall a: nat, b: nat, e: nat | MatchesAt(q, m.start, a, b, e) ensures a == m.tickerEnd {
        TickerUnique(q, m.start, a, b, e, m.tickerEnd, m.sepEnd, m.end);
      }
    }
  }

  // ---------------------------------------------------------------------
  // From the match to the request
  // ---------------------------------------------------------------------

  /** `str.upper` on the characters the ticker group can hold. */
  function UpperChar(c: char): (u: char)
    ensures 'a' <= c <= 'z' ==> 'A' <= u <= 'Z' && u as int - c as int == 'A' as int - 'a' as int
    ensures !('a' <= c <= 'z') ==> u == c
  {
    if 'a' <= c <= 'z' then (c as int - 'a' as int + 'A' as int) as char else c
  }

  function Upper(s: string): (u: string)
    ensures |u| == |s|
    ensures forall k :: 0 <= k < |s| ==> u[k] == UpperChar(s[k])
  {
    seq(|s|, k requires 0 <= k < |s| => UpperChar(s[k]))
  }

  /** Upper-casing keeps word characters word characters and leaves no lower-case letter. */
  lemma UpperWord(s: string)
    requires forall k :: 0 <= k < |s| ==> IsWordChar(s[k])
    ensures forall k :: 0 <= k < |s| ==> IsWordChar(Upper(s)[k]) && !('a' <= Upper(s)[k] <= 'z')
  {
  }

  /** The ticker and period the tool asks the data source for. */
  datatype Request = Request(ticker: string, period: string)

  /**
    `match.group(1).upper()` and `match.group(2)`, or nothing when the query
    does not match. The ticker keeps the length of group 1 and holds no
    lower-case letter.
  */
  function ParseQuery(q: string): (r: Option<Request>)
    ensures r.None? <==> Search(q).None?
    ensures r.Some? ==>
      var m := Search(q).value;
      && m.start + |TickerKey| < m.tickerEnd <= m.sepEnd && m.sepEnd + |PeriodKey| < m.end <= |q|
      && r.value.ticker == Upper(q[m.start + |TickerKey|..m.tickerEnd])
      && r.value.period == q[m.sepEnd + |PeriodKey|..m.end]
      && forall k :: 0 <= k < |r.value.ticker| ==> IsWordChar(r.value.ticker[k]) && !('a' <= r.value.ticker[k] <= 'z')
  {
    SearchCorrect(q);
    match Search(q)
    case None => None
    case Some(m) =>
      var group1 := q[m.start + |TickerKey|..m.tickerEnd];
      UpperWord(group1);
      Some(Request(Upper(group1), q[m.sepEnd + |PeriodKey|..m.end]))
  }

  /** The example in the tool's description, written in lower case. */
  const DescriptionExample: string := "ticker=aapl, period=6mo"

  lemma ExampleTickerRun(q: string)
    requires q == DescriptionExample
    ensures WordRun(q, 7) == 4
  {
    assert q[7] == 'a' && q[8] == 'a' && q[9] == 'p' && q[10] == 'l' && q[11] == ',';
    assert WordRun(q, 11) == 0;
    assert WordRun(q, 10) == 1;
    assert WordRun(q, 9) == 2;
    assert WordRun(q, 8) == 3;
  }

  lemma ExamplePeriodRuns(q: string)
    requires q == DescriptionExample
    ensures SpaceRun(q, 12) == 1 && WordRun(q, 20) == 3
  {
    assert q[12] == ' ' && q[13] == 'p' && q[20] == '6' && q[21] == 'm' && q[22] == 'o' && |q| == 23;
    assert SpaceRun(q, 13) == 0;
    assert WordRun(q, 23) == 0;
    assert WordRun(q, 22) == 1;
    assert WordRun(q, 21) == 2;
  }

  lemma ExampleTail(q: string)
    requires q == DescriptionExample
    ensures MatchTail(q, 11) == Some((13, 23))
  {
    ExamplePeriodRuns(q);
    assert q[13..20] == PeriodKey;
    assert HasAt(q, 13, PeriodKey);
    assert MatchPeriod(q, 12) == Some((13, 23));
    assert q[11] == ',';
  }

  lemma ExampleMatch(q: string)
    requires q == DescriptionExample
    ensures MatchAt(q, 0) == Some(Span(0, 11, 13, 23))
  {
    assert HasAt(q, 0, TickerKey);
    ExampleTickerRun(q);
    ExampleTail(q);
    assert MatchTicker(q, 7, 4) == Some((11, 13, 23));
  }

  lemma ExampleSearch(q: string)
    requires q == DescriptionExample
    ensures Search(q) == Some(Span(0, 11, 13, 23))
  {
    ExampleMatch(q);
  }

  lemma ExampleGroups(q: string)
    requires q == DescriptionExample
    ensures Upper(q[7..11]) == "AAPL" && q[20..23] == "6mo"
  {
    assert q[7..11] == "aapl";
  }

  /** The example parses to ticker AAPL and period 6mo. */
  lemma ParseDescriptionExample(q: string)
    requires q == DescriptionExample
    ensures ParseQuery(q) == Some(Request("AAPL", "6mo"))
  {
    ExampleSearch(q);
    ExampleGroups(q);
  }

  /** A file separator, which `\s` accepts, may stand between the two groups. */
  const SeparatorExample: string := "ticker=A" + ['\U{1C}'] + "period=b"

  lemma SeparatorExampleRuns(q: string)
    requires q == SeparatorExample
    ensures WordRun(q, 7) == 1 && SpaceRun(q, 8) == 1 && WordRun(q, 16) == 1
  {
    assert q[7] == 'A' && q[8] == '\U{1C}' && q[9] == 'p' && q[16] == 'b' && |q| == 17;
    assert WordRun(q, 8) == 0 && SpaceRun(q, 9) == 0 && WordRun(q, 17) == 0;
  }

  lemma SeparatorExampleMatch(q: string)
    requires q == SeparatorExample
    ensures MatchAt(q, 0) == Some(Span(0, 8, 9, 17))
  {
    SeparatorExampleRuns(q);
    assert q[0..7] == TickerKey && q[9..16] == PeriodKey;
    assert HasAt(q, 0, TickerKey) && HasAt(q, 9, PeriodKey);
    assert MatchPeriod(q, 8) == Some((9, 17));
    assert MatchTail(q, 8) == Some((9, 17));
    assert MatchTicker(q, 7, 1) == Some((8, 9, 17));
  }

  lemma SeparatorExampleSearch(q: string)
    requires q == SeparatorExample
    ensures Search(q) == Some(Span(0, 8, 9, 17))
  {
    SeparatorExampleMatch(q);
  }

  lemma SeparatorExampleGroups(q: string)
    requires q == SeparatorExample
    ensures Upper(q[7..8]) == "A" && q[16..17] == "b"
  {
    assert q[7..8] == "A";
  }

  /** The query with a file separator in place of the comma parses to ticker A and period b. */
  lemma ParseSeparatorExample(q: string)
    requires q == SeparatorExample
    ensures ParseQuery(q) == Some(Request("A", "b"))
  {
    SeparatorExampleSearch(q);
    SeparatorExampleGroups(q);
  }

  // ---------------------------------------------------------------------
  // The recommendation machine
  // ---------------------------------------------------------------------

  datatype Recommendation = Hold | Buy | Sell {
    function Name(): string {
      match this
      case Hold => "HOLD"
      case Buy => "BUY"
      case Sell => "SELL"
    }
  }

  /** Outcome of `price > avg * hi` / `price < avg * lo` for one moving average. */
  datatype MaSignal = Above | Below | Within

  /** Outcome of `rsi > 70` / `rsi < 30`; an undefined RSI compares false both ways and is Moderate. */
  datatype RsiBand = Overbought | Oversold | Moderate

  /**
    One moving-average step: a price far above the average argues for SELL and
    far below for BUY, unless the current value already says the opposite, in
    which case it is kept.
  */
  function MaStep(rec: Recommendation, s: MaSignal): (r: Recommendation)
    ensures rec != Hold ==> r == rec
    ensures rec == Hold ==> (r == Sell <==> s == Above) && (r == Buy <==> s == Below)
  {
    assert rec.Hold? || rec.Buy? || rec.Sell?;
    match s
    case Above => if rec != Buy then Sell else rec
    case Below => if rec != Sell then Buy else rec
    case Within => rec
  }

  /**
    The RSI step: overbought gives SELL unless the current value is BUY, which
    becomes HOLD; oversold gives BUY unless it is SELL, which becomes HOLD.
  */
  function RsiStep(rec: Recommendation, b: RsiBand): (r: Recommendation)
    ensures b == Moderate ==> r == rec
    ensures b == Overbought ==> (r == Hold <==> rec == Buy) && (r != Hold ==> r == Sell)
    ensures b == Oversold ==> (r == Hold <==> rec == Sell) && (r != Hold ==> r == Buy)
  {
    match b
    case Overbought => if rec != Buy then Sell else Hold
    case Oversold => if rec != Sell then Buy else Hold
    case Moderate => rec
  }

  /** The moving-average steps never turn BUY into SELL or SELL into BUY. */
  lemma MaStepNeverReverses(rec: Recommendation, s: MaSignal)
    ensures rec == Buy ==> MaStep(rec, s) != Sell
    ensures rec == Sell ==> MaStep(rec, s) != Buy
  {
  }

  /** The RSI step moves a committed recommendation against it only as far as HOLD. */
  lemma RsiStepNeverReverses(rec: Recommendation, b: RsiBand)
    ensures rec == Buy ==> RsiStep(rec, b) != Sell
    ensures rec == Sell ==> RsiStep(rec, b) != Buy
  {
  }

  // ---------------------------------------------------------------------
  // The fetched history, as the tool looks at it
  // ---------------------------------------------------------------------

  /**
    A history frame. `gainSince[b]` is whether the latest close is above the
    close of row `b` (a positive percentage change since row `b`); the number
    of rows is `|gainSince|`. `vs50`, `vs200` and `rsi` are the outcomes of the
    tool's comparisons; `vs200` is only meaningful with at least 200 rows.
  */
  datatype Frame = Frame(gainSince: seq<bool>, vs50: MaSignal, vs200: MaSignal, rsi: RsiBand)

  /** What the data source returns: a frame, or an exception with its text. */
  datatype History = Fetched(frame: Frame) | Raised(detail: string)

  function Rows(f: Frame): nat {
    |f.gainSince|
  }

  /** The 200-day average exists only when the history has at least 200 rows. */
  predicate Has200(f: Frame) {
    Rows(f) >= 200
  }

  /** Row the monthly change is measured from: the 30th from last when there are 30 rows, else the first. */
  function MonthBase(rows: nat): (b: nat)
    requires rows > 0
    ensures b < rows
    ensures rows >= 30 ==> rows - b == 30
    ensures rows < 30 ==> b == 0
  {
    if rows >= 30 then rows - 30 else 0
  }

  datatype Reason =
    | PriceAbove50 | PriceBelow50
    | PriceAbove200 | PriceBelow200
    | RsiHigh | RsiLow | RsiModerate
    | MonthIncreased | MonthDecreased

  predicate IsRsiReason(r: Reason) {
    r == RsiHigh || r == RsiLow || r == RsiModerate
  }

  predicate IsMonthReason(r: Reason) {
    r == MonthIncreased || r == MonthDecreased
  }

  function Ma50Reasons(s: MaSignal): seq<Reason> {
    match s
    case Above => [PriceAbove50]
    case Below => [PriceBelow50]
    case Within => []
  }

  function Ma200Reasons(s: MaSignal): seq<Reason> {
    match s
    case Above => [PriceAbove200]
    case Below => [PriceBelow200]
    case Within => []
  }

  function RsiReason(b: RsiBand): Reason {
    match b
    case Overbought => RsiHigh
    case Oversold => RsiLow
    case Moderate => RsiModerate
  }

  function MonthReason(f: Frame): Reason
    requires Rows(f) > 0
  {
    if f.gainSince[MonthBase(Rows(f))] then MonthIncreased else MonthDecreased
  }

  /** The recommendation after the three steps, starting from HOLD. */
  function Recommend(f: Frame): Recommendation {
    var afterMa50 := MaStep(Hold, f.vs50);
    var afterMa200 := if Has200(f) then MaStep(afterMa50, f.vs200) else afterMa50;
    RsiStep(afterMa200, f.rsi)
  }

  /** The reasons in the order the tool collects them. */
  function Reasons(f: Frame): seq<Reason>
    requires Rows(f) > 0
  {
    Ma50Reasons(f.vs50) + (if Has200(f) then Ma200Reasons(f.vs200) else []) + [RsiReason(f.rsi), MonthReason(f)]
  }

  // ---------------------------------------------------------------------
  // The report
  // ---------------------------------------------------------------------

  /** One line of the analysis text; the numbers printed with `%.2f` are left abstract. */
  datatype Line =
    | Title(ticker: string)
    | CurrentPrice
    | Average50
    | Average200
    | RsiValue
    | MonthChange
    | Verdict(rec: Recommendation)
    | ReasoningHeader
    | Item(number: nat, reason: Reason)
    | Disclaimer

  /** The reasons as a list numbered from 1. */
  function Numbered(rs: seq<Reason>): (ls: seq<Line>)
    ensures |ls| == |rs|
    ensures forall k :: 0 <= k < |rs| ==> ls[k] == Item(k + 1, rs[k])
  {
    seq(|rs|, k requires 0 <= k < |rs| => Item(k + 1, rs[k]))
  }

  /** Numbering one more reason appends its item. */
  lemma NumberedSnoc(rs: seq<Reason>, i: nat)
    requires i < |rs|
    ensures Numbered(rs[..i + 1]) == Numbered(rs[..i]) + [Item(i + 1, rs[i])]
  {
    var a, b := Numbered(rs[..i + 1]), Numbered(rs[..i]) + [Item(i + 1, rs[i])];
    forall k | 0 <= k < |a| ensures a[k] == b[k] {
      if k < i {
        assert rs[..i + 1][k] == rs[..i][k];
      }
    }
  }

  /** The fixed lines before the numbered reasons, ending with the verdict and the `Reasoning:` header. */
  function Preamble(ticker: string, f: Frame): seq<Line> {
    [Title(ticker), CurrentPrice, Average50] + (if Has200(f) then [Average200] else [])
      + [RsiValue, MonthChange, Verdict(Recommend(f)), ReasoningHeader]
  }

  /** The whole analysis text for a non-empty history. */
  function ReportLines(ticker: string, f: Frame): seq<Line>
    requires Rows(f) > 0
  {
    Preamble(ticker, f) + Numbered(Reasons(f)) + [Disclaimer]
  }

  /**
    The decision part of the analysis as the tool runs it: the recommendation
    is reassigned step by step and the reasons are appended one at a time.
  */
  method Decide(f: Frame) returns (recommendation: Recommendation, reasons: seq<Reason>)
    requires Rows(f) > 0
    ensures recommendation == Recommend(f)
    ensures reasons == Reasons(f)
  {
    recommendation := Hold;
    reasons := [];
    var rows := |f.gainSince|;
    var has200 := rows >= 200;

    if f.vs50 == Above {
      reasons := reasons + [PriceAbove50];
      recommendation := if recommendation != Buy then Sell else recommendation;
    } else if f.vs50 == Below {
      reasons := reasons + [PriceBelow50];
      recommendation := if recommendation != Sell then Buy else recommendation;
    }
    ghost var afterMa50 := recommendation;
    assert afterMa50 == MaStep(Hold, f.vs50) && reasons == Ma50Reasons(f.vs50);

    if has200 {
      if f.vs200 == Above {
        reasons := reasons + [PriceAbove200];
        recommendation := if recommendation != Buy then Sell else recommendation;
      } else if f.vs200 == Below {
        reasons := reasons + [PriceBelow200];
        recommendation := if recommendation != Sell then Buy else recommendation;
      }
      assert recommendation == MaStep(afterMa50, f.vs200);
      assert reasons == Ma50Reasons(f.vs50) + Ma200Reasons(f.vs200);
    }
    assert recommendation == (if Has200(f) then MaStep(afterMa50, f.vs200) else afterMa50);
    ghost var maReasons := reasons;
    assert maReasons == Ma50Reasons(f.vs50) + (if Has200(f) then Ma200Reasons(f.vs200) else []);

    if f.rsi == Overbought {
      reasons := reasons + [RsiHigh];
      recommendation := if recommendation != Buy then Sell else Hold;
    } else if f.rsi == Oversold {
      reasons := reasons + [RsiLow];
      recommendation := if recommendation != Sell then Buy else Hold;
    } else {
      reasons := reasons + [RsiModerate];
    }
    assert recommendation == Recommend(f);
    assert reasons == maReasons + [RsiReason(f.rsi)];
    ghost var withRsi := reasons;

    var base := if rows >= 30 then rows - 30 else 0;
    reasons := reasons + [if f.gainSince[base] then MonthIncreased else MonthDecreased];
    AppendTwo(maReasons, RsiReason(f.rsi), MonthReason(f));
  }

  /** Appending two reasons one at a time appends the pair. */
  lemma AppendTwo(rs: seq<Reason>, x: Reason, y: Reason)
    ensures rs + [x] + [y] == rs + [x, y]
  {
  }

  /**
    The text part: the fixed lines, then the reasons in a numbered loop, then
    the disclaimer.
  */
  method Render(ticker: string, f: Frame, recommendation: Recommendation, reasons: seq<Reason>)
    returns (lines: seq<Line>)
    requires Rows(f) > 0 && recommendation == Recommend(f) && reasons == Reasons(f)
    ensures lines == ReportLines(ticker, f)
  {
    var has200 := |f.gainSince| >= 200;
    lines := [Title(ticker), CurrentPrice, Average50];
    if has200 {
      lines := lines + [Average200];
    }
    lines := lines + [RsiValue, MonthChange, Verdict(recommendation), ReasoningHeader];
    assert lines == Preamble(ticker, f);

    ghost var preamble := lines;
    var i := 0;
    while i < |reasons|
      invariant 0 <= i <= |reasons|
      invariant lines == preamble + Numbered(reasons[..i])
    {
      NumberedSnoc(reasons, i);
      lines := lines + [Item(i + 1, reasons[i])];
      i := i + 1;
    }
    assert reasons[..i] == reasons;
    lines := lines + [Disclaimer];
  }

  /** The whole analysis of a non-empty history. */
  method Analyze(ticker: string, f: Frame) returns (lines: seq<Line>)
    requires Rows(f) > 0
    ensures lines == ReportLines(ticker, f)
  {
    var recommendation, reasons := Decide(f);
    lines := Render(ticker, f, recommendation, reasons);
  }

  // ---------------------------------------------------------------------
  // Properties of the analysis
  // ---------------------------------------------------------------------

  /**
    There are two to four reasons: the moving-average ones (at most one per
    average) first, then exactly one RSI reason, then exactly one monthly one.
  */
  lemma ReasonsShape(f: Frame)
    requires Rows(f) > 0
    ensures var rs := Reasons(f);
      && 2 <= |rs| <= 4
      && |rs| == 2 + (if f.vs50 != Within then 1 else 0) + (if Has200(f) && f.vs200 != Within then 1 else 0)
      && rs[|rs| - 2] == RsiReason(f.rsi) && rs[|rs| - 1] == MonthReason(f)
      && (forall k :: 0 <= k < |rs| - 2 ==> !IsRsiReason(rs[k]) && !IsMonthReason(rs[k]))
  {
    var rs := Reasons(f);
    var ma := Ma50Reasons(f.vs50) + (if Has200(f) then Ma200Reasons(f.vs200) else []);
    assert rs == ma + [RsiReason(f.rsi), MonthReason(f)];
    assert forall k :: 0 <= k < |rs| - 2 ==> rs[k] == ma[k];
  }

  /** A 200-day reason is only ever given for a history of at least 200 rows. */
  lemma Reason200NeedsRows(f: Frame)
    requires Rows(f) > 0
    ensures PriceAbove200 in Reasons(f) || PriceBelow200 in Reasons(f) ==> Has200(f)
  {
    if !Has200(f) {
      assert Reasons(f) == Ma50Reasons(f.vs50) + [RsiReason(f.rsi), MonthReason(f)];
    }
  }

  /** Below 200 rows the 200-day comparison has no effect on the recommendation. */
  lemma Recommend200Ignored(f: Frame, s: MaSignal)
    requires !Has200(f)
    ensures Recommend(f.(vs200 := s)) == Recommend(f)
  {
  }

  /** The 200-day line is printed exactly when the history has at least 200 rows. */
  lemma Average200LinePrinted(ticker: string, f: Frame)
    requires Rows(f) > 0
    ensures Average200 in ReportLines(ticker, f) <==> Has200(f)
  {
    var ls := ReportLines(ticker, f);
    var pre := Preamble(ticker, f);
    var items := Numbered(Reasons(f));
    if Has200(f) {
      assert ls[3] == pre[3] == Average200;
    } else {
      forall k | 0 <= k < |ls| ensures ls[k] != Average200 {
        if k < |pre| {
          assert ls[k] == pre[k];
        } else if k < |pre| + |items| {
          assert ls[k] == items[k - |pre|];
        }
      }
    }
  }

  /**
    The verdict and the `Reasoning:` header end the preamble; the reasons follow
    in the order collected, numbered 1 to n, and the disclaimer comes last.
  */
  lemma ReportItems(ticker: string, f: Frame)
    requires Rows(f) > 0
    ensures var ls := ReportLines(ticker, f); var o := |Preamble(ticker, f)|;
      && ls[o - 2] == Verdict(Recommend(f)) && ls[o - 1] == ReasoningHeader
      && |ls| == o + |Reasons(f)| + 1
      && (forall k :: 0 <= k < |Reasons(f)| ==> ls[o + k] == Item(k + 1, Reasons(f)[k]))
      && ls[|ls| - 1] == Disclaimer
  {
    var ls := ReportLines(ticker, f);
    var o := |Preamble(ticker, f)|;
    forall k | 0 <= k < |Reasons(f)| ensures ls[o + k] == Item(k + 1, Reasons(f)[k]) {
      assert ls[o + k] == Numbered(Reasons(f))[k];
    }
  }

  /** Exactly one line carries the recommendation, the one before the `Reasoning:` header, and it is the one the steps computed. */
  lemma OneVerdict(ticker: string, f: Frame)
    requires Rows(f) > 0
    ensures var ls := ReportLines(ticker, f); var v := |Preamble(ticker, f)| - 2;
      && ls[v] == Verdict(Recommend(f))
      && forall k :: 0 <= k < |ls| && k != v ==> !ls[k].Verdict?
  {
    var ls := ReportLines(ticker, f);
    var pre := Preamble(ticker, f);
    var items := Numbered(Reasons(f));
    assert ls[|pre| - 2] == pre[|pre| - 2];
    forall k | 0 <= k < |ls| && k != |pre| - 2 ensures !ls[k].Verdict? {
      if k < |pre| {
        assert ls[k] == pre[k];
      } else if k < |pre| + |items| {
        assert ls[k] == items[k - |pre|];
      }
    }
  }

  // ---------------------------------------------------------------------
  // The tool entry point
  // ---------------------------------------------------------------------

  const InvalidFormatText: string := "Invalid input format. " + "Use: 'ticker=AAPL, period=6mo'"
  const NoDataPrefix: string := "Could not find historical data for ticker "
  const ErrorPrefix: string := "Error analyzing stock "

  /** What the tool returns: a plain message, or the analysis text. */
  datatype Reply = Message(text: string) | Analysis(lines: seq<Line>)

  /** The reply once the request has been made and the history is known. */
  function Respond(req: Request, h: History): (r: Reply)
    ensures r != Message(InvalidFormatText)
    ensures h.Raised? ==> r == Message(ErrorPrefix + req.ticker + ": " + h.detail)
    ensures h.Fetched? && Rows(h.frame) == 0 ==> r == Message(NoDataPrefix + req.ticker)
    ensures r.Analysis? <==> h.Fetched? && Rows(h.frame) > 0
    ensures h.Fetched? && Rows(h.frame) > 0 ==> r == Analysis(ReportLines(req.ticker, h.frame))
  {
    match h
    case Raised(d) =>
      var text := ErrorPrefix + req.ticker + ": " + d;
      assert text[0] == ErrorPrefix[0] == 'E' && InvalidFormatText[0] == 'I';
      Message(text)
    case Fetched(f) =>
      if Rows(f) == 0 then
        var text := NoDataPrefix + req.ticker;
        assert text[0] == NoDataPrefix[0] == 'C' && InvalidFormatText[0] == 'I';
        Message(text)
      else Analysis(ReportLines(req.ticker, f))
  }

  /**
    `StockAnalysisTool._run`. The data source is the parameter `fetch`; the
    request it is asked, if any, is returned in `request`: none when the query
    does not match, in which case the reply is the fixed invalid-format text.
  */
  method Run(query: string, fetch: Request -> History) returns (reply: Reply, request: Option<Request>)
    ensures request == ParseQuery(query)
    ensures request.None? <==> reply == Message(InvalidFormatText)
    ensures request.Some? ==> reply == Respond(request.value, fetch(request.value))
  {
    var m := Search(query);
    ghost var parsed := ParseQuery(query);
    if m.None? {
      return Message(InvalidFormatText), None;
    }
    var ticker := Upper(query[m.value.start + |TickerKey|..m.value.tickerEnd]);
    var period := query[m.value.sepEnd + |PeriodKey|..m.value.end];
    request := Some(Request(ticker, period));
    assert request == parsed;
    var hist := fetch(request.value);
    match hist {
      case Raised(detail) =>
        reply := Message(ErrorPrefix + ticker + ": " + detail);
      case Fetched(f) =>
        if |f.gainSince| == 0 {
          reply := Message(NoDataPrefix + ticker);
        } else {
          var lines := Analyze(ticker, f);
          reply := Analysis(lines);
        }
    }
    assert reply == Respond(request.value, hist);
  }
}
