# StockAI, modelled in Dafny

StockAI is a stock-market assistant with two halves:

- a Python back end, where an agent answers free-text questions with a stock price tool and a stock analysis tool;
- a React front end, with a chat panel, a price chart, a stock detail page, a navigation bar and demo sign-in and sign-up pages.

This project models the deterministic logic of both halves and proves what it promises.

**Analysis tool** (`StockTools.dfy`).
- `StockAnalysisTool._run` reads `ticker=XXX, period=YYY` out of its query with a regular-expression search. The search is modelled the way a backtracking engine runs it: leftmost start, greedy groups, and the comma tried before no comma. It is proved equal to a declarative definition of a match. Either nothing matches anywhere, or the search returns the leftmost match, the only ticker group possible there, and the longest period group.
- The ticker is group 1 upper-cased and the period is group 2 as written.
- The recommendation is a three-state machine (HOLD, BUY, SELL). Each float comparison of the tool is a discrete signal: price above, below or within the band of each moving average, and RSI overbought, oversold or moderate.
- The reasons, the report's lines (title, averages, RSI, monthly change, verdict, the `Reasoning:` header, the numbered reasons, the disclaimer) and the entry point's error replies are modelled in order. The printed numbers are abstract, and the report is a sequence of lines rather than one string, so its blank lines are not represented.
- The imperative analysis (`Decide` and the numbered loop in `Render`) is proved equal to the functional definitions, and the properties are proved about those.
- A `Recommendation` value is always one of HOLD, BUY and SELL by construction. The machine starts at HOLD.

**Chat panel** (`StockChat.dfy`, with `JsText.dfy` for JavaScript's `trim`).
- A class holds the transcript, the input box, the `loading` flag and the error.
- `Submit` is the part of `handleSubmit` before its `await`; `Settle` is the part after it, given an abstract outcome of the HTTP request. `Exchange` is a whole accepted submission.
- Every method keeps one invariant: the greeting comes first, then user and bot messages alternate, user messages are trimmed, `loading` holds exactly while a user message is unanswered, and the error state matches the last reply.

**Chart and detail page** (`StockChart.dfy`, `StockDetail.dfy`).
- The chart maps a period code to a day count and builds that many labels (one per day, ending yesterday) and one price per label. It also tracks its own `currentPeriod`.
- The detail page looks up the company name for a ticker, colours the day's change as a gain or a loss, and keeps a `timePeriod`.
- `currentPeriod` is taken from the chart's `period` prop only when the chart mounts. So after mount, the detail page's own period buttons change only the detail page's `timePeriod`, and not the chart.

**Shared state and pages** (`AppState.dfy`, `Navbar.dfy`, `Login.dfy`, `Signup.dfy`).
- The application's theme, user stub, body `data-theme` attribute, `localStorage` and location are fields of an `App` object, and the pages' handlers update them.
- The one-second timers of the sign-in, sign-up and detail pages are callbacks that fire atomically; they are separate methods.

I/O is a parameter or an abstract outcome:
- the price history the analysis tool fetches is the function `fetch`;
- the chat's HTTP request is the `Outcome` passed to `Settle`;
- the random numbers of the mock chart prices are `r` and `draw`.

The source and its specification disagree in one place, and the model follows the source. The specification says every 5xx status is a server fault. `StockChat.jsx` gives the server-error text only for status 500, and the generic text for 503 and other statuses.

The detail page draws a down arrow for a gain and an up arrow for a loss. This is logged under Findings.

## Model

| member | source | states |
|---|---|---|
| StockTools.MatchAtSound | app/agent/tools/stock_tools.py:62 | what the anchored matcher returns is a match of `ticker=(\w+),?\s*period=([\w\d]+)` at that position whose period group cannot be extended |
| StockTools.MatchAtComplete | app/agent/tools/stock_tools.py:62 | whenever the pattern matches at a position, the anchored matcher succeeds there |
| StockTools.TickerUnique | app/agent/tools/stock_tools.py:62 | two matches at the same position have the same ticker group |
| StockTools.SearchCorrect | app/agent/tools/stock_tools.py:62-63 | `re.search` finds nothing exactly when the pattern matches nowhere; otherwise it returns the leftmost match, the only ticker group there and a maximal period group |
| StockTools.UpperWord | app/agent/tools/stock_tools.py:66 | upper-casing a ticker group keeps it made of word characters and leaves no lower-case letter |
| StockTools.ParseQuery | app/agent/tools/stock_tools.py:62-67 | no request exactly when the search fails; otherwise the ticker is group 1 upper-cased (word characters, no lower case) and the period is group 2 verbatim |
| StockTools.ParseDescriptionExample | app/agent/tools/stock_tools.py:55-67 | the description's format written in lower case, `ticker=aapl, period=6mo`, parses to ticker AAPL and period 6mo |
| StockTools.ParseSeparatorExample | app/agent/tools/stock_tools.py:62-67 | `ticker=A`, the file separator U+001C, then `period=b` parses to ticker A and period b: `\s` accepts the separator |
| StockTools.MaStep | app/agent/tools/stock_tools.py:92-105 | a moving-average step keeps BUY and SELL; from HOLD it gives SELL exactly for a price above the band and BUY exactly for one below |
| StockTools.RsiStep | app/agent/tools/stock_tools.py:108-115 | overbought gives SELL, or HOLD from BUY; oversold gives BUY, or HOLD from SELL; moderate keeps the value |
| StockTools.MaStepNeverReverses | app/agent/tools/stock_tools.py:94-105 | a moving-average step never turns BUY into SELL or SELL into BUY |
| StockTools.RsiStepNeverReverses | app/agent/tools/stock_tools.py:110-113 | the RSI step moves a committed BUY or SELL against itself only as far as HOLD |
| StockTools.MonthBase | app/agent/tools/stock_tools.py:118 | the monthly change is measured from the 30th-from-last row when there are at least 30 rows, otherwise from row 0, always a valid row |
| StockTools.Numbered | app/agent/tools/stock_tools.py:138-139 | reason `k` is printed as item `k + 1`, one item per reason |
| StockTools.Decide | app/agent/tools/stock_tools.py:88-119 | the step-by-step reassignment of the recommendation and the appends to the reasons compute exactly `Recommend` and `Reasons` |
| StockTools.Render | app/agent/tools/stock_tools.py:122-141 | the fixed lines, the optional 200-day line, the verdict and the `Reasoning:` header, the numbering loop and the disclaimer build exactly `ReportLines` |
| StockTools.Analyze | app/agent/tools/stock_tools.py:76-143 | the analysis of a non-empty history is the report for its recommendation and reasons |
| StockTools.ReasonsShape | app/agent/tools/stock_tools.py:92-119 | two to four reasons, one per moving average outside its band, then exactly one RSI reason and exactly one monthly reason, in that order |
| StockTools.Reason200NeedsRows | app/agent/tools/stock_tools.py:99-105 | a 200-day reason is only given for a history of at least 200 rows |
| StockTools.Recommend200Ignored | app/agent/tools/stock_tools.py:78-99 | below 200 rows the 200-day comparison cannot change the recommendation |
| StockTools.Average200LinePrinted | app/agent/tools/stock_tools.py:127-128 | the 200-day line is printed exactly when the history has at least 200 rows |
| StockTools.ReportItems | app/agent/tools/stock_tools.py:130-141 | the verdict and then the `Reasoning:` header end the preamble, then the reasons follow in order numbered 1 to n, then the disclaimer |
| StockTools.OneVerdict | app/agent/tools/stock_tools.py:134-136 | exactly one line carries a recommendation, the one right before the `Reasoning:` header, and it is the one the steps computed |
| StockTools.Respond | app/agent/tools/stock_tools.py:68-146 | an exception gives the error-analyzing text, an empty history the no-data text for the ticker, any other history the analysis `ReportLines` of its ticker and history; none of these is the invalid-format text |
| StockTools.Run | app/agent/tools/stock_tools.py:61-73 | no request is made exactly when the reply is the fixed invalid-format text; the request made is the parsed one, and the reply is the response to what the data source returns for it |
| JsText.BlankIffAllSpace | stock-market-frontend/src/components/StockChat.jsx:35 | input is blank for `!input.trim()` exactly when every character is ECMAScript whitespace |
| JsText.TrimYieldsTrimmed | stock-market-frontend/src/components/StockChat.jsx:37 | trimming a non-blank input gives a non-empty text with whitespace at neither end |
| JsText.TrimmedIffFixed | stock-market-frontend/src/components/StockChat.jsx:37 | the texts `trim` returns for non-blank input are exactly the non-empty texts `trim` leaves alone |
| JsText.TrimIdempotent | stock-market-frontend/src/components/StockChat.jsx:37 | trimming twice is trimming once |
| StockChat.BotReply | stock-market-frontend/src/components/StockChat.jsx:49-82 | the reply is flagged an error exactly when the request was not answered with a non-empty `response`; it carries the answer or the failure text |
| StockChat.FailureTextCases | stock-market-frontend/src/components/StockChat.jsx:61-75 | rate-limit text exactly for status 429, server text exactly for status 500, connection text exactly for no response, generic text for everything else |
| StockChat.ServiceUnavailableIsGeneric | stock-market-frontend/src/components/StockChat.jsx:63-69 | status 503 gets the generic error reply |
| StockChat.EmptyAnswerIsFailure | stock-market-frontend/src/components/StockChat.jsx:49-61 | a success without a `response` field, or with an empty one, is reported as a generic failure |
| StockChat.ErrorAfter | stock-market-frontend/src/components/StockChat.jsx:77-82 | after a request the error is set exactly when it was not answered, and then equals the error reply's text |
| StockChat.SendKeepsConsistent | stock-market-frontend/src/components/StockChat.jsx:37-43 | sending a trimmed query from an idle panel keeps the transcript invariant |
| StockChat.ReplyKeepsConsistent | stock-market-frontend/src/components/StockChat.jsx:51-84 | completing the request in flight keeps the transcript invariant |
| StockChat.ChatView.constructor | stock-market-frontend/src/components/StockChat.jsx:8-16 | the transcript is exactly the greeting, the box is empty, nothing is loading, there is no error |
| StockChat.ChatView.SetInput | stock-market-frontend/src/components/StockChat.jsx:148-151 | typing changes only the box, and only while no request is in flight |
| StockChat.ChatView.Submit | stock-market-frontend/src/components/StockChat.jsx:35-43 | blank input changes nothing and sends nothing; otherwise one user message with the trimmed text is appended and sent, the box is cleared, `loading` is set and the error cleared |
| StockChat.ChatView.Settle | stock-market-frontend/src/components/StockChat.jsx:47-85 | one bot reply for the outcome is appended, the error becomes that reply's text for a failure and stays clear for an answer, `loading` is cleared |
| StockChat.ChatView.Exchange | stock-market-frontend/src/components/StockChat.jsx:33-86 | an accepted submission appends exactly the user message and then the bot reply, keeps the earlier transcript and ends with `loading` false |
| StockChart.PeriodDays | stock-market-frontend/src/components/StockChart.jsx:40-42 | 1mo is 30 days, 3mo 90, 6mo 180, and every other code 365 |
| StockChart.Labels | stock-market-frontend/src/components/StockChart.jsx:44-48 | exactly `days` labels, label `i` for `days - i` days ago |
| StockChart.LabelsRunToYesterday | stock-market-frontend/src/components/StockChart.jsx:44-46 | the label offsets decrease strictly from `days` to 1, so today is never a label |
| StockChart.Prices | stock-market-frontend/src/components/StockChart.jsx:51-57 | one price per label, within one unit of the 5% trend line when the random draws lie in [0, 1) |
| StockChart.BuildChart | stock-market-frontend/src/components/StockChart.jsx:59-70 | the chart has one label per day of the period and a single series labelled with the ticker holding one price per label |
| StockChart.ChartView.constructor | stock-market-frontend/src/components/StockChart.jsx:26-30 | `currentPeriod` starts as the `period` prop, with `loading` set and no data |
| StockChart.ChartView.Load | stock-market-frontend/src/components/StockChart.jsx:32-80 | the effect sets the chart data built for the current period and clears `loading`, without changing the period |
| StockChart.ChartView.SelectPeriod | stock-market-frontend/src/components/StockChart.jsx:91-95 | a button sets `currentPeriod` to exactly its own code and changes nothing else |
| StockDetail.TickerName | stock-market-frontend/src/pages/StockDetail.jsx:47-59 | a table ticker gets its table name, any other ticker gets the ticker followed by " Inc.", and the name is never empty |
| StockDetail.TableNames | stock-market-frontend/src/pages/StockDetail.jsx:48-56 | each of the seven table tickers gets its fixed company name |
| StockDetail.LookupIsCaseSensitive | stock-market-frontend/src/pages/StockDetail.jsx:58 | `aapl` gets the fallback name `aapl Inc.` |
| StockDetail.ChangeStyleAsDrawn | stock-market-frontend/src/pages/StockDetail.jsx:94-102 | as drawn: green exactly for a change of at least zero, and then a downward arrow |
| StockDetail.GainDrawnWithDownArrow | stock-market-frontend/src/pages/StockDetail.jsx:95-98 | a zero change counts as a gain, is coloured green and is drawn with a downward arrow |
| StockDetail.ChangeStyleFor | stock-market-frontend/src/pages/StockDetail.jsx:94-102 | a change of at least zero, zero included, is green with an up arrow; a negative change is red |
| StockDetail.ColorMatchesArrow | stock-market-frontend/src/pages/StockDetail.jsx:94-102 | under the intended styling green goes exactly with the up arrow, and every arrow is the opposite of the drawn one |
| StockDetail.DetailView.constructor | stock-market-frontend/src/pages/StockDetail.jsx:9-11 | the page starts loading, without data, with `timePeriod` 1mo |
| StockDetail.DetailView.DataArrived | stock-market-frontend/src/pages/StockDetail.jsx:20-35 | the timer sets the company name for the ticker and clears `loading`, leaving the period |
| StockDetail.DetailView.SelectPeriod | stock-market-frontend/src/pages/StockDetail.jsx:117-120 | a period button sets `timePeriod` to exactly its own code and changes nothing else |
| AppState.StoredTheme | stock-market-frontend/src/App.jsx:14 | the stored theme is present exactly when storage holds the `theme` key, with that key's value |
| AppState.InitialTheme | stock-market-frontend/src/App.jsx:14 | a non-empty stored theme is used, a missing or empty one falls back to light |
| AppState.App.constructor | stock-market-frontend/src/App.jsx:13-19 | the application starts with the theme read back from storage and the signed-out user stub |
| Navbar.Toggle | stock-market-frontend/src/components/Navbar.jsx:12 | light becomes dark, and every other theme becomes light |
| Navbar.ToggleInvolution | stock-market-frontend/src/components/Navbar.jsx:12 | toggling twice from light or dark gives the theme back |
| Navbar.ToggleNormalises | stock-market-frontend/src/components/Navbar.jsx:12 | any other stored theme becomes light after one toggle and dark after two |
| Navbar.ToggledThemeSurvivesReload | stock-market-frontend/src/components/Navbar.jsx:12-15 | the theme a toggle stores is the one the application reads back on its next mount |
| Navbar.IsActive | stock-market-frontend/src/components/Navbar.jsx:18 | the highlight class exactly when the path is the current one, otherwise no class |
| Navbar.OneActiveLink | stock-market-frontend/src/components/Navbar.jsx:45-46 | at most one of the bar's two page links is highlighted |
| Navbar.CornerFor | stock-market-frontend/src/components/Navbar.jsx:69-114 | the login and sign-up links exactly when the token is falsy, otherwise the profile button with the user's avatar |
| Navbar.MenuLinks | stock-market-frontend/src/components/Navbar.jsx:129-139 | a closed menu shows nothing; an open one starts with the two page links and offers login and sign-up exactly when the token is falsy |
| Navbar.SignedOutOffersSignIn | stock-market-frontend/src/components/Navbar.jsx:20-25 | after sign-out the sign-in links are offered again and sign-out is not shown |
| Navbar.NavbarView.constructor | stock-market-frontend/src/components/Navbar.jsx:8 | the menu starts closed |
| Navbar.NavbarView.ChangeTheme | stock-market-frontend/src/components/Navbar.jsx:11-16 | the theme state, the body attribute and the stored theme all become the toggled theme; the user stub and location are unchanged |
| Navbar.NavbarView.Logout | stock-market-frontend/src/components/Navbar.jsx:20-27 | the user stub becomes the application's initial signed-out stub and nothing else changes |
| Navbar.NavbarView.ToggleMenu | stock-market-frontend/src/components/Navbar.jsx:119 | each press of a menu button flips the menu flag |
| Login.CheckCredentials | stock-market-frontend/src/pages/Login.jsx:21-26 | exactly the demo email and password sign in, and they set the demo stub |
| Login.VariantsRejected | stock-market-frontend/src/pages/Login.jsx:21 | a change of case or trailing whitespace in the credentials is rejected |
| Login.DemoAuthSignsIn | stock-market-frontend/src/pages/Login.jsx:22-26 | the demo stub has a truthy token and differs from the signed-out stub |
| Login.LoginForm.constructor | stock-market-frontend/src/pages/Login.jsx:6-9 | empty email and password, not loading, empty error |
| Login.LoginForm.SetEmail | stock-market-frontend/src/pages/Login.jsx:54 | typing changes only the email |
| Login.LoginForm.SetPassword | stock-market-frontend/src/pages/Login.jsx:67 | typing changes only the password |
| Login.LoginForm.Begin | stock-market-frontend/src/pages/Login.jsx:13-16 | submit sets `loading` and clears the error before any check |
| Login.LoginForm.Complete | stock-market-frontend/src/pages/Login.jsx:19-32 | demo credentials set the demo stub and navigate to the dashboard; others leave stub and location alone and set the invalid-credentials text; `loading` ends false |
| Login.LoginForm.Submit | stock-market-frontend/src/pages/Login.jsx:13-33 | a whole sign-in: the demo pair ends on the dashboard with the demo stub and no error; any other pair changes neither stub nor location and shows the fixed text |
| Signup.WithField | stock-market-frontend/src/pages/Signup.jsx:15-20 | the named field takes the new value and every other field is unchanged |
| Signup.UpdatesCommute | stock-market-frontend/src/pages/Signup.jsx:15-20 | updates of two different fields can be made in either order |
| Signup.Validate | stock-market-frontend/src/pages/Signup.jsx:28-32 | the mismatch error exactly when the passwords differ |
| Signup.OnlyPasswordsChecked | stock-market-frontend/src/pages/Signup.jsx:22-32 | forms with the same two passwords validate alike, whatever their name and email |
| Signup.EmptyFormAccepted | stock-market-frontend/src/pages/Signup.jsx:5-10 | the starting form, all four fields empty, passes the only check |
| Signup.SignupForm.constructor | stock-market-frontend/src/pages/Signup.jsx:5-12 | all four fields empty, not loading, empty error |
| Signup.SignupForm.HandleChange | stock-market-frontend/src/pages/Signup.jsx:15-20 | the input's field takes its value, the other fields and the flags are unchanged |
| Signup.SignupForm.Submit | stock-market-frontend/src/pages/Signup.jsx:22-34 | the error is cleared first; mismatched passwords give the mismatch text and clear `loading`; matching ones leave `loading` set for the timer |
| Signup.SignupForm.Redirect | stock-market-frontend/src/pages/Signup.jsx:35-38 | the timer navigates to the sign-in page and clears `loading` |
| Signup.SignupForm.SubmitAndWait | stock-market-frontend/src/pages/Signup.jsx:22-39 | a whole submission: matching passwords end on the sign-in page with no error, mismatched ones stay put with the mismatch text, `loading` ends false; the user stub, the theme, the body attribute and the storage are unchanged |

## Left out

- Price data: fetching the history, the rolling means, the RSI arithmetic and the `%.2f` formatting are not modelled. They are foreign-library calls and floating point. The analysis takes the outcomes of the tool's comparisons as signals instead, and a printed number is an abstract line.
- StockTools.Frame: the monthly change is given as one "latest close above this row's close" flag per row, so a division by a zero close is not modelled.
- StockTools.IsWordChar: covers ASCII only. Python's `\w` and `str.upper` on text patterns are Unicode-aware, so the model does not capture non-ASCII tickers.
- StockTools.IsSpaceChar: covers the ASCII characters `str.isspace` accepts (space, tab to carriage return, and U+001C to U+001F) only, so non-ASCII whitespace such as U+00A0 or U+2028, which `\s` on a text pattern also accepts, is not modelled.
- `StockPriceTool` and `StockAnalysisTool._arun`: not modelled. The latter calls `_run` with two arguments, which `_run` does not accept.
- The back end's agent and HTTP plumbing (backend/app/agent/stock_agent.py, app/api/routes.py, app/main.py) is not part of this model. The chat sees them only through the abstract request outcome.
- StockChat.Outcome: models the `response` field only as a string or absent. A truthy non-string value, such as a number, is not modelled.
- The chat's side effects are not modelled: the HTTP request, console logging, scrolling and focus are I/O.
- `handleQuickQuestion` is not modelled. Its effect depends on timer and stale-closure timing.
- ChatView.Submit: the single request in flight is a precondition (`!loading`). The input and button are disabled while loading; event-loop concurrency is not modelled.
- StockChart.ChartView.Load: the `catch` branch is not modelled. Building mock data cannot throw.
- StockChart.Prices: says nothing about the values beyond the trend bound, because they are random.
- Date text: the locale date text of the chart labels is not modelled; a label is the day it stands for.
- StockDetail: the random mock statistics and the other figures of the detail page are not modelled.
- StockDetail.Companies: a finite map. A JavaScript object lookup of a ticker such as `constructor` reaches the object prototype, which the model does not capture.
- StockDetail.IsGain: takes the change as a real number. The two-decimal rounding by `toFixed` and the reparse by `parseFloat` are not modelled; a change rounded to `-0.00` counts as a gain in both.
- Timers: the one-second timers of the sign-in, sign-up and detail pages fire atomically as separate methods. Interleavings with other input are not modelled.
- Browser validation: the `required` and `type="email"` attributes of the form inputs are enforced by the browser before the submit handlers run, and are not modelled.
- Declarative markup: routing, the home, dashboard and footer components, and the styling have no logic to model.

## Findings

| source | as written | input that shows it | evidently intended | confidence | as-written member | corrected member |
|---|---|---|---|---|---|---|
| stock-market-frontend/src/pages/StockDetail.jsx:95-102 | for a change of at least zero the page draws the icon whose shaft runs from y = 7 down to y = 12.586 with its head below, a downward arrow; a loss gets the upward one | a change of 0.00 (or any gain): green text with a downward arrow | a gain is shown green with an up arrow, a loss red with a down arrow | not executed | StockDetail.GainDrawnWithDownArrow | StockDetail.ChangeStyleFor |
