# gostocktrade backtest engine in Dafny

This project models the backtest engine of gostocktrade, a Go web application
that downloads daily stock quotes and searches for good parameters for five
technical-analysis trading rules. A rule is scored by replaying it over the
stored candles. The rules are EMA crossover, Bollinger band rebound, MACD
crossover, RSI thresholds and Williams %R thresholds.

The model has five parts, mirroring the Go files.

- `signals.dfy` models `app/models/indicator/macd.go`. `Signals.SignalList` is the
  growable list of Buy/Sell events that every family uses. Its `Buy` and `Sell`
  are gated by `CanBuy`/`CanSell`, so the list always alternates and starts with
  a Buy. `Profit` is the accumulator walk that scores the list. It is proved
  equal to the sum of (sell price − buy price) over the completed round trips.
- `generators.dfy` models the five `backtest*` functions of `app/models/backtest.go`.
  Each is a `while` loop over days 1..n−1 that mutates a fresh `SignalList`. Each
  is proved against `History`, a day-by-day specification of the list. Lemmas
  then show what every recorded event means. It comes from a day the guards let
  through, on which the family's crossing rule fired. It carries that day's time
  and close, and the days appear in non-decreasing order.
- `search.dfy` and `backtest.dfy` model the five `optimize*` grid searches and
  `BackTest`. The nested loops are proved equal to a left fold (`Scan`) over the
  grid enumerated in loop order. The fold is proved to return one of two things.
  It returns the **first** combination, in loop order, with the largest positive
  profit. Or, when nothing earns more than 0, it returns 0 and the hard-coded
  defaults. `BackTest` composes the five searches and re-runs each winner.
- `dataframe.dfy` models `app/models/dataframe.go`: the column accessors (array
  fill loops) and the `AddX` methods of `IndicatorFrame` (a length guard, then an
  append or a field update).
- `candles.dfy` and `candle.dfy` model `app/models/candles.go` and `app/models/candle.go`:
  the column-to-row conversion of a quote and the copy loop of `GetCandles`.

Modelling choices:

- Prices and indicator values are exact `real`s.
- The go-talib indicator routines are an oracle, `TaLib.Library`. It maps a
  routine, its parameters and a day index to the value in that routine's output
  array.
- The database fetch and the clock are parameters:
  - the candle frame `cframe`;
  - the fetched rows of `GetCandles`;
  - `nowUnix` for `time.Now().Unix()`.
- Bollinger K is stepped by 0.1 in the source. It is modelled as integer tenths
  (18..22 for 1.8..2.2).
- The RSI/WillR thresholds, stepped by 1.0, are integers converted to `real`.

## Model

| member | source | states |
|---|---|---|
| Signals.SignalList.constructor | app/models/backtest.go:150 | a new signal list is empty, hence alternating |
| Signals.SignalList.CanBuy | app/models/indicator/macd.go:37-49 | true exactly when the list is empty or its last action is Sell; on an alternating list, exactly when it holds an even number of events |
| Signals.SignalList.CanSell | app/models/indicator/macd.go:61-73 | true exactly when the list is non-empty and its last action is Buy; always the negation of CanBuy |
| Signals.SignalList.Buy | app/models/indicator/macd.go:28-34 | returns the prior CanBuy; when true, exactly one Buy event with the given symbol, time and price is appended, otherwise the list is unchanged; alternation is preserved |
| Signals.SignalList.Sell | app/models/indicator/macd.go:52-58 | the same, gated by CanSell and appending a Sell event |
| Signals.SignalList.Profit | app/models/indicator/macd.go:76-97 | the accumulator walk over the events returns ProfitOf (the balance, or the balance at the last Sell when still holding); on an alternating list this is the sum of sell − buy over the complete round trips |
| Signals.GatesOnAlternating | app/models/indicator/macd.go:37-73 | on an alternating list, Buy is allowed exactly at even length and Sell exactly at odd length |
| Signals.GatesComplementary | app/models/indicator/macd.go:37-73 | the Buy gate holds exactly when the Sell gate does not |
| Signals.TryBuyAlternating | app/models/indicator/macd.go:28-49 | a gated Buy keeps an alternating list alternating |
| Signals.TrySellAlternating | app/models/indicator/macd.go:52-73 | a gated Sell keeps an alternating list alternating |
| Signals.ReplayAlternating | app/models/indicator/macd.go:28-73 | any sequence of Buy/Sell calls starting from an alternating (e.g. empty) list yields an alternating list |
| Signals.AlternatingIff | app/models/indicator/macd.go:28-73 | alternating (even positions Buy, odd positions Sell) is equivalent to "first action is Buy and no two consecutive actions are equal" |
| Signals.ProfitEmpty | app/models/indicator/macd.go:76-97 | the empty list scores 0 |
| Signals.ProfitOneRoundTrip | app/models/indicator/macd.go:76-97 | a single Buy followed by a Sell scores sell price − buy price |
| Signals.ProfitIgnoresTrailingBuy | app/models/indicator/macd.go:92-94 | appending a Buy to any list leaves the score unchanged (a trailing unmatched Buy is dropped) |
| Signals.TallyOfAlternating | app/models/indicator/macd.go:81-90 | on an alternating list the three accumulators are determined by the round-trip sum: not holding at even length, holding with the last buy price subtracted at odd length |
| Signals.ProfitIsRoundTripSum | app/models/indicator/macd.go:76-97 | for an alternating list the score equals the sum of (sell − buy) over its complete Buy/Sell pairs |
| Generators.HistoryAlternating | app/models/backtest.go:150-168 | every generator history alternates and starts with a Buy |
| Generators.HistoryWitnessed | app/models/backtest.go:154-166 | every recorded event has a day before the bound, in non-decreasing order, which the guards let through, on which the rule for its action fired, and whose candle gives its time and close |
| Generators.FiringBuyRecorded | app/models/backtest.go:159-161 | conversely, on a day that passes the guards, a firing Buy rule records a Buy with that day's candle whenever the list can buy |
| Generators.FiringSellRecorded | app/models/backtest.go:163-165 | on a day that passes the guards, a firing Sell rule records a Sell with that day's candle whenever the list can sell |
| Generators.EmaEvents | app/models/backtest.go:154-165 | EMA: every event is on a day ≥ short and ≥ long, priced at that day's close; Buy only where the short EMA crosses up through the long one, Sell only where it crosses down |
| Generators.BBEvents | app/models/backtest.go:207-218 | BB: every event is on a day ≥ N at that day's close; Buy only where the close comes back to or above the lower band after being below it, Sell only the mirror image at the upper band |
| Generators.MacdEvents | app/models/backtest.go:265-276 | MACD: Buy only where both lines are negative and MACD crosses up through the signal line, Sell only where both are positive and it crosses down |
| Generators.RsiEvents | app/models/backtest.go:323-334 | RSI: nothing on a day whose previous value is exactly 0 or 100; Buy only on a crossing up to the buy threshold, Sell only on a crossing down to the sell threshold |
| Generators.WillrEvents | app/models/backtest.go:381-392 | WillR: nothing on a day whose previous value is exactly 0 or −100; Buy/Sell only on threshold crossings from below/above |
| Generators.BacktestEma | app/models/backtest.go:142-169 | nil exactly when short or long is at least the candle count; otherwise the list built by the day loop equals History and alternates; the list is freshly allocated |
| Generators.BacktestBB | app/models/backtest.go:196-222 | nil exactly when N is at least the candle count; otherwise the list equals History and alternates; the list is freshly allocated |
| Generators.BacktestMacd | app/models/backtest.go:254-280 | nil exactly when fast, slow or signal is at least the candle count; otherwise the list equals History and alternates; the list is freshly allocated |
| Generators.BacktestRsi | app/models/backtest.go:312-338 | nil exactly when the period is at least the candle count; otherwise the list equals History and alternates; the list is freshly allocated |
| Generators.BacktestWillr | app/models/backtest.go:370-396 | nil exactly when the period is at least the candle count; otherwise the list equals History and alternates; the list is freshly allocated |
| GridSearch.ScanResult | app/models/backtest.go:123-137 | the strict-less fold returns at least the seed and at least every feasible score; it is either the seed untouched or the first candidate in order that reaches the maximum |
| GridSearch.ScanKeepsSeed | app/models/backtest.go:119-139 | when no feasible candidate scores above the seed, the seed (0 and the defaults) is returned unchanged |
| GridSearch.PairsFacts | app/models/backtest.go:123-124 | the two nested ascending loops visit exactly the in-range pairs, in strictly increasing lexicographic order |
| GridSearch.TriplesFacts | app/models/backtest.go:232-234 | the three nested ascending loops visit exactly the in-range triples, in strictly increasing lexicographic order |
| GridSearch.ScanPairsIsScan | app/models/backtest.go:123-137 | folding loop by loop is folding the whole visiting order |
| GridSearch.ScanTriplesIsScan | app/models/backtest.go:232-248 | the same for three loops |
| GridSearch.PairSearch | app/models/backtest.go:119-139 | a two-parameter search from (0, defaults) returns performance ≥ 0 and ≥ every feasible profit; 0 means the defaults; a positive result is an in-range feasible combination reaching it, and no lexicographically earlier combination reaches it |
| GridSearch.TripleSearch | app/models/backtest.go:227-251 | the same promise for three-parameter searches |
| Backtest.Outcome | app/models/backtest.go:125-130 | what an optimizer reads off a grid point: nothing exactly when the generator returns nil; otherwise the sum of (sell − buy) over the completed round trips of the generator's history |
| Backtest.EvaluatePair | app/models/backtest.go:125-130 | running the EMA/BB generator on a grid point and taking Profit() gives that point's Outcome |
| Backtest.EvaluateTriple | app/models/backtest.go:233-238 | the same for the MACD/RSI/WillR generators |
| Backtest.VisitPairsScans | app/models/backtest.go:123-137 | the two-level loop fold equals the left scan of the grid in loop order |
| Backtest.VisitPairsOptimal | app/models/backtest.go:119-139 | the two-level loop fold keeps the optimizer promise (max, first to reach it, or 0 with the defaults) |
| Backtest.VisitTriplesScans | app/models/backtest.go:232-248 | the three-level loop fold equals the left scan of the grid in loop order |
| Backtest.VisitTriplesOptimal | app/models/backtest.go:227-251 | the three-level loop fold keeps the optimizer promise |
| Backtest.PairWinner | app/models/backtest.go:119-139 | a two-parameter winner has performance ≥ 0; 0 means the defaults; a positive one is in range and is the profit of re-running those parameters |
| Backtest.TripleWinner | app/models/backtest.go:227-251 | the same for three-parameter winners |
| Backtest.OptimizeEma | app/models/backtest.go:116-140 | the nested short × long loops from (0, (7, 14)) compute the loop fold VisitPairs, whose optimality VisitPairsOptimal states |
| Backtest.OptimizeBB | app/models/backtest.go:171-194 | the nested N × K loops from (0, (20, 2.0)) compute VisitPairs over K in tenths |
| Backtest.OptimizeMacd | app/models/backtest.go:224-252 | the nested fast × slow × signal loops from (0, (12, 26, 9)) compute VisitTriples |
| Backtest.OptimizeRsi | app/models/backtest.go:282-310 | the nested period × buy × sell loops from (0, (14, 30, 70)) compute VisitTriples |
| Backtest.OptimizeWillr | app/models/backtest.go:340-368 | the nested period × buy × sell loops from (0, (10, −20, −80)) compute VisitTriples |
| Backtest.Round | app/models/backtest.go:88 | Go's math.Round: within one half of x, halves rounded away from zero |
| Backtest.ChoicesOptimal | app/models/backtest.go:79-83 | each of BackTest's five fixed-grid winners satisfies its optimizer's promise |
| Backtest.BackTest | app/models/backtest.go:76-114 | fails (the nil dereference) exactly when some winner's re-run is nil; otherwise returns the record of the five winners, with performances math.Round(best)/100, timestamp nowUnix·1000, and the re-run signal lists |
| Backtest.RecordedIsConsistent | app/models/backtest.go:79-111 | in a successful record, each family either stores the rounded profit of its stored signal list with in-grid parameters, or 0 with the family's defaults; every stored list alternates |
| Backtest.UnprofitableMacdFails | app/models/backtest.go:81-108 | with at most 26 candles and no profitable MACD combination, the default slow period 26 re-runs to nil and BackTest fails |
| Backtest.ShortFrameFails | app/models/backtest.go:81-108 | with at most 20 candles BackTest always fails, whatever the prices |
| Backtest.RerunSignals | app/models/backtest.go:106-110 | a re-run's list alternates; a nil re-run contributes no signals |
| Backtest.RerunChecked | app/models/backtest.go:106-110 | one re-run with the nil check added: the family's generator on the given parameters, giving its alternating history, or no signals when the generator returns nil |
| Backtest.BackTestGuarded | app/models/backtest.go:76-114 | the corrected BackTest: always returns a record, storing no signals for a nil re-run, and agrees with BackTest whenever BackTest succeeds |
| DataFrame.Opens | app/models/dataframe.go:12-18 | one value per candle, value i being candle i's open; the frame is a value and is not modified |
| DataFrame.Highs | app/models/dataframe.go:21-27 | one value per candle, value i being candle i's high |
| DataFrame.Lows | app/models/dataframe.go:30-36 | one value per candle, value i being candle i's low |
| DataFrame.Closes | app/models/dataframe.go:39-45 | one value per candle, value i being candle i's close |
| DataFrame.Volumes | app/models/dataframe.go:48-54 | one value per candle, value i being candle i's volume |
| DataFrame.IndicatorFrame.constructor | app/models/dataframe.go:70-75 | the frame holds the fetched candles and no indicators |
| DataFrame.IndicatorFrame.AddSma | app/models/dataframe.go:78-88 | succeeds exactly when period ≤ candle count; then exactly one Sma entry with that period and talib's output is appended, otherwise the list is unchanged; nothing else changes |
| DataFrame.IndicatorFrame.AddEma | app/models/dataframe.go:91-101 | the same for the Ema list |
| DataFrame.IndicatorFrame.AddBBands | app/models/dataframe.go:104-118 | succeeds exactly when N ≤ candle count; then the bands are set recording N and K; otherwise unchanged |
| DataFrame.IndicatorFrame.AddMacd | app/models/dataframe.go:121-136 | fails only on an empty frame, whatever the periods; otherwise sets the MACD lines recording fast, slow and signal |
| DataFrame.IndicatorFrame.AddRsi | app/models/dataframe.go:139-149 | succeeds exactly when period ≤ candle count; then sets the RSI line with that period; otherwise unchanged |
| DataFrame.IndicatorFrame.AddWillR | app/models/dataframe.go:152-162 | succeeds exactly when period ≤ candle count; then sets the Williams %R line with that period; otherwise unchanged |
| Candles.ColumnsOfRows | app/models/candles.go:15-29 | reading the columns back from the rows of a quote gives the quote with every column cut to the Date length |
| Candles.RowsOfColumns | app/models/candles.go:15-29 | building rows from the columns of a candle list gives the list back |
| Candles.NewCandlesFromQuote | app/models/candles.go:15-29 | requires every column to cover the Date column; returns exactly one candle per date, candle i built from element i of each column (so an empty Date column gives no candles) |
| Candles.GetCandles | app/models/candles.go:43-53 | the fetched rows are copied into the frame unchanged and in order |
| LegacyCandles.NewCandles | app/models/candle.go:14-28 | the same as NewCandlesFromQuote, and its columns are the quote's columns trimmed to the Date length |

## Left out

- The go-talib indicator routines (Sma, Ema, BBands, Macd, Rsi, WillR) are foreign floating-point code. They are the oracle `TaLib.Library`, with one value per routine, parameter set and day. The model does not tie those values to the closing prices.
- Floating point: all arithmetic is exact over `real`.
  - The float64 drift of the Bollinger `k += 0.1` loop is not modelled. Over BackTest's range 1.8 .. 2.2 the loop at app/models/backtest.go:179 visits five values in the same order as the model, but the second is the double 1.9000000000000001 rather than 1.9; that value is what the source passes to talib and records as the winning K. The model steps K in exact tenths.
- Backtest.Performance: the score is stored as math.Round(best) / 100, as the code does at app/models/backtest.go:88-102. This is the rounded profit divided by 100, not a profit rounded to two decimals.
- Backtest.BackTest: the timestamp is `nowUnix * 1000` in unbounded integers. Go's int64 overflow is not modelled because it needs a clock reading beyond the year 292 million.
- The database is not modelled (gorm persistence):
  - `CreateBacktestResult`, `DeleteBacktestResult` and `GetOptimizedParamFrame` in app/models/backtest.go;
  - the query in `GetCandles`, `CreateCandles` and `AllDeleteCandles` in app/models/candles.go;
  - `Create` in app/models/candle.go.

  `GetCandleFrame`, which BackTest calls to load the frame, is not part of this model. The frame is a parameter of BackTest.
- `time.Now()` in BackTest is the parameter `nowUnix`.
- The HTTP handlers, the Yahoo download, startup code and the browser UI are outside the backtest engine.
- The signal lists of the EMA, BB, RSI and WillR families have their own Go types, not shown. They are modelled by the one `Signals.SignalList`, built on the pattern of macd.go.
  - The database `ID` of a signal is not modelled.
- The candle's Date column is stored in the candle's `time` field.
- The `symbol` of a frame built by `GetCandles` is the empty string, because the shown `CandleFrame` struct has no Symbol field. BackTest reads the symbol of the frame it is given.
- Backtest.OptimizeEma and the other four optimizers state their result as the loop fold `VisitPairs`/`VisitTriples`. The optimality promise is proved about that fold in `Backtest.VisitPairsOptimal`/`Backtest.VisitTriplesOptimal`, and for BackTest's own grids in `Backtest.ChoicesOptimal`. It is not repeated in the methods' own ensures.
- Resuming a backtest incrementally is not implemented by any code of the engine and is not modelled.

## Findings

| source | as written | input that shows it | evidently intended | confidence | as-written member | corrected member |
|---|---|---|---|---|---|---|
| app/models/backtest.go:106-110 | the signals of each re-run with the winning parameters are read as `backtestX(...).XSignals` without checking for nil | a frame of at most 20 candles: every MACD grid point has slow ≥ 20, so the MACD winner is the defaults (12, 26, 9) and its re-run returns nil (likewise ≤ 26 candles with no profitable MACD combination) | store no signals for that family and still return the record | not executed | Backtest.BackTest (with Backtest.ShortFrameFails and Backtest.UnprofitableMacdFails) | Backtest.BackTestGuarded |
