# Trading signals: indicators, signal rules and new-signal alerts

A Dafny model of the computational core of a small Python trading-signal program:

- **indicators.py**: the RSI, the MACD line and its signal line, and the Stochastic Oscillator
  (%K, %D). Each indicator has a buy/sell rule.
- **tradingalgotest.py**: a stand-alone script. Its `calculate_rsi` and `calculate_macd`
  (lines 7-14 and 17-22) are textual copies of `indicators.py:2-9` and `indicators.py:20-25`.
  They are modelled by the same functions, `Indicators.CalculateRsi` and
  `Indicators.CalculateMacd`, so everything proved about those holds for the copies.
  The script's inline RSI and MACD signal expressions are written out separately and proved
  equal to the indicator module's rules.
- **main.py**: the notification logic.
  - dispatch on the configured indicator name;
  - choice of the latest buy and the latest sell date, and of the date and label to report;
  - the "already notified" store (`is_new_signal`, `update_last_signal_date`);
  - the decision to record a date and send an alert.

Numbers are exact `real`s. A pandas float cell is `Series.Value`, which is either `NaN` or
`Num(v)`; every comparison that involves `NaN` is false, as it is in pandas. Division by zero is
an explicit branch:

- RSI: a zero smoothed loss with a positive smoothed gain makes `rs` infinite, so the RSI is 100.
  A zero smoothed loss with a zero smoothed gain gives NaN.
- Stochastic: a flat window (`high_max == low_min`) gives NaN.

The common textbook convention reports a neutral 50 in both degenerate cases (an RSI with no
moves, a %K on a flat window). This code does not, and the model follows the code.

`diff()` leaves bar 0 NaN, and pandas' `ewm(adjust=False)` seeds the average at the first
non-NaN observation. The model therefore smooths the gains and losses from bar 1 on
(`Indicators.Moves`, `Gains`, `Losses`) and puts NaN at bar 0.

Modules, one per concern:

- `Series`: float cells, comparisons, `shift`, `&`.
- `Smoothing`: the `adjust=False` exponentially weighted mean.
- `Rolling`: rolling min, max and mean with `min_periods = window`.
- `Prices`: the price table's rows and dates.
- `Indicators`, `TradingAlgoTest`, `SignalStore`, `Alerts`: the three source files.
- `Wrappers`: Option and Result.

## Model

| member | source | states |
|---|---|---|
| `Smoothing.EwmAtWithin` | indicators.py:5-6 | if every input up to bar i lies in [lo, hi], the `adjust=False` mean at bar i lies in [lo, hi] (convexity) |
| `Smoothing.EwmAtBetweenExtremes` | indicators.py:21-22 | the mean at bar i lies between the smallest and the largest input seen up to bar i |
| `Smoothing.EwmNonNegative` | indicators.py:5-6 | smoothing non-negative gains or losses gives a non-negative Series |
| `Smoothing.EwmIsCausal` | indicators.py:21-22 | the mean at bar i depends only on bars 0..i (no look-ahead) |
| `Smoothing.EwmZeroIffAllZero` | indicators.py:5-6 | for alpha < 1 and non-negative input, the mean at bar i is zero iff every input up to i is zero |
| `Smoothing.Ewm` | indicators.py:21-22 | the smoothed Series has the input's length |
| `Smoothing.EwmLoop` | indicators.py:5 | the accumulator recursion `y[0] = x[0]`, `y[i] = a*x[i] + (1-a)*y[i-1]` computes exactly `Ewm` |
| `Rolling.RollingMin` | indicators.py:37 | NaN exactly for the first window - 1 bars; elsewhere a value no larger than any Low in the window and equal to one of them |
| `Rolling.RollingMax` | indicators.py:38 | NaN exactly for the first window - 1 bars; elsewhere a value no smaller than any High in the window and equal to one of them |
| `Rolling.RollingMean` | indicators.py:40 | defined at bar i exactly when the window is complete and holds no NaN |
| `Rolling.RollingMeanWithin` | indicators.py:40 | every defined rolling mean of values in [lo, hi] lies in [lo, hi] |
| `Indicators.Moves` | indicators.py:3 | one move per pair of consecutive closes; `diff`'s NaN at bar 0 is left out |
| `Indicators.Gains` | indicators.py:4 | `clip(lower=0)` of each move: one per move, never negative |
| `Indicators.Losses` | indicators.py:4 | `-clip(upper=0)` of each move: never negative; gain minus loss is the move, and at most one of the two is nonzero |
| `Indicators.SmoothedGains` | indicators.py:3-5 | `ema_up` is aligned with bars 1.. and never negative |
| `Indicators.SmoothedLosses` | indicators.py:3-6 | `ema_down` is aligned with bars 1.. and never negative |
| `Indicators.RsiValue` | indicators.py:7-8 | defined values lie in [0, 100]; NaN iff up = down = 0; exactly 100 iff down = 0 and up > 0 |
| `Indicators.CalculateRsi` | indicators.py:2-9 | RSI has the input's length, is NaN at bar 0 and lies in [0, 100] wherever defined |
| `Indicators.RsiUndefinedIffFlat` | indicators.py:3-8 | for window >= 2, RSI at bar i >= 1 is NaN iff the close did not move over bars 0..i |
| `Indicators.RsiHundredIffOnlyRises` | indicators.py:3-8 | for window >= 2, RSI at bar i >= 1 is 100 iff the close never fell over bars 1..i and rose at least once |
| `Indicators.RsiSignals` | indicators.py:12-16 | buy iff RSI defined and < 30, sell iff defined and > 70; both false at bar 0; never both on one bar |
| `Indicators.CalculateMacd` | indicators.py:20-25 | MACD line and signal line have the input's length and are numbers at every bar |
| `Indicators.MacdWithinSpread` | indicators.py:21-24 | both MACD lines at bar i are bounded in size by the spread (max - min) of the closes up to bar i |
| `Indicators.MacdOfConstant` | indicators.py:21-24 | a constant close gives MACD line = signal line = 0 at every bar |
| `Indicators.MacdSignals` | indicators.py:28-32 | buy at i iff i >= 1, macd[i] > signal[i] and macd[i-1] <= signal[i-1]; sell the mirror image; never both |
| `Indicators.ConstantCloseNoMacdSignal` | indicators.py:30-31 | a constant close never produces a MACD buy or sell |
| `Indicators.PercentK` | indicators.py:39 | a number exactly when both window extremes are numbers and differ; in [0, 100] when the close lies between them; 0 at the low, 100 at the high |
| `Indicators.CalculateStochasticOscillator` | indicators.py:36-41 | %K and %D have the input's length; %K is NaN for i < k_window - 1; %D is defined iff the d_window %K values ending at i are all defined |
| `Indicators.PercentKDefinedness` | indicators.py:37-39 | %K at i is defined iff its window is complete and not flat; a flat window leaves it NaN |
| `Indicators.PercentDWarmUp` | indicators.py:37-40 | %D is NaN before bar k_window + d_window - 2 |
| `Indicators.StochasticWithin` | indicators.py:37-40 | if every bar has Low <= Close <= High, %K and %D lie in [0, 100] wherever defined |
| `Indicators.StochasticSignals` | indicators.py:44-48 | buy iff K > D and K < 20, sell iff K < D and K > 80, both false where K or D is NaN; never both |
| `Indicators.StochasticSilentDuringWarmUp` | indicators.py:46-47 | no Stochastic signal fires before bar k_window + d_window - 2 |
| `TradingAlgoTest.RsiBranch` | tradingalgotest.py:47-50 | the script's `rsi < 30` / `rsi > 70` equal `rsi_signals` with window 14; false at bar 0; exclusive |
| `TradingAlgoTest.MacdBranch` | tradingalgotest.py:54-57 | the script's crossover expressions equal `macd_signals` with 12/26/9; false at bar 0; exclusive |
| `TradingAlgoTest.ScriptSignals` | tradingalgotest.py:47-59 | signals exist iff the choice is 'RSI' or 'MACD'; any other choice computes none |
| `SignalStore.IsNewSignal` | main.py:17-26 | true for a missing, empty or date-less store; otherwise true iff the date is not among the stored dates |
| `SignalStore.Appended` | main.py:29-37 | the written store has a `date` column holding the earlier rows in order plus exactly one new row at the end |
| `SignalStore.AppendedNovelty` | main.py:17-37 | after appending d, d is no longer new and every other date is exactly as new as before |
| `SignalStore.DateStore.UpdateLastSignalDate` | main.py:29-37 | the store becomes `Appended(old, d)`; d is then not new; novelty of every other date unchanged |
| `Alerts.ParseIndicator` | main.py:64-71 | a branch is selected iff the name is exactly 'RSI', 'MACD' or 'Stochastic' |
| `Alerts.IndicatorSignals` | main.py:64-71 | the chosen indicator's buy/sell Series have the table's length and never both fire on one bar |
| `Alerts.LatestDate` | main.py:75-76 | None iff no bar is flagged; otherwise a flagged bar's date that no flagged bar's date exceeds |
| `Alerts.LatestDateIsLastFlagged` | main.py:75-76 | with strictly increasing dates, the latest flagged date is the date of the last flagged bar |
| `Alerts.MaxAsWritten` | main.py:77 | `max(buy, sell)` succeeds iff both dates exist (TypeError otherwise) and then returns the later one |
| `Alerts.OneSidedSignalsRaise` | main.py:75-77 | with buys but no sells, the program as written raises TypeError although a signal exists |
| `Alerts.SingleBarRaises` | main.py:75-77 | on a one-bar table with any known indicator, the program as written raises TypeError |
| `Alerts.LatestSignalDate` | main.py:77-79 | the later of the existing dates, None iff neither exists; equal to `max` whenever both exist |
| `Alerts.BuyIffBuyNotEarlier` | main.py:80 | with `SignalTypeOf` comparing the latest buy with the reported date, the label is Buy iff the latest buy is not earlier than the latest sell, so a tie reports Buy |
| `Alerts.LatestSignal` | main.py:60-80 | lines 60-80 with line 77 corrected: an empty table raises IndexError; an unknown indicator name leaves `buy_signals` unbound (UnboundLocalError); otherwise a result, also where line 77 as written raises |
| `Alerts.LatestSignalAsWritten` | main.py:60-80 | lines 60-80 as written: IndexError and UnboundLocalError as above; otherwise a result iff some bar bought and some bar sold, TypeError if not; any result equals `LatestSignal`'s |
| `Alerts.LatestSignalReports` | main.py:64-80 | nothing to report iff no bar signalled; else the latest signalling date, labelled Buy iff a buy fell on that date |
| `Prices.IsoRoundTrip` | main.py:79-83 | `strftime('%Y-%m-%d')` of a date with a 4-digit year has 10 characters and reads back as that date |
| `Prices.IsoInjective` | main.py:17-26 | two such dates have the same text iff they are the same date, so the store's string test compares dates |
| `Alerts.AlertEmail` | main.py:83-84 | the subject is "New Trading Signal"; the body is the line "New signal: Buy" or "New signal: Sell", then "Ticker: " and the ticker, then "Date: " and the signal's date text |
| `Alerts.PlotWithIndicator` | main.py:79-84 | the store is appended and an alert produced only when the latest date is new; otherwise the store is unchanged |
| `Alerts.RunTwice` | main.py:79-84 | running the notification twice on the same data alerts at most once: the second run never alerts, fails exactly when the first does, and leaves the store as the first run left it (at most one row appended) |

## Left out

- Market data: fetching from yfinance (main.py:104-109, tradingalgotest.py:31-35) is network I/O. The price table is an input, `seq<Prices.Bar>`.
- Plotting: every matplotlib call is display only.
- Email: SMTP delivery (main.py:39-53) is network I/O and is left out, with the sender's credentials and the recipient. `Alerts.PlotWithIndicator` returns the subject and body it would send. A delivery failure, which the code raises after the store is updated, is not modelled.
- Files: loading the configuration, and reading and writing the store's CSV, are file I/O. The store is modelled by what the two functions can observe, `SignalStore.StoreFile`. A non-empty file that pandas cannot parse is not modelled.
- Floating point: IEEE-754 rounding is left out; all arithmetic is exact.
- Indicators.PercentK, Indicators.CalculateStochasticOscillator: for a flat window whose close lies outside the window, pandas gives plus or minus infinity; the model gives NaN. This can only happen when a bar violates Low <= Close <= High.
- Smoothing.Ewm: how pandas weights NaN values in the middle of the input is not modelled. The price columns hold numbers, so the only NaN that reaches `ewm` is the leading one from `diff`, and that one is modelled.
- Smoothing.Ewm, Indicators.CalculateRsi, Indicators.CalculateMacd: spans below 1 are excluded by `requires`. pandas' `ewm` raises ValueError for them.
- Rolling.RollingMin, Rolling.RollingMax, Rolling.RollingMean, Indicators.CalculateStochasticOscillator: a window of 0 is excluded by `requires`, although pandas' `rolling` accepts it. Only negative windows raise. Every call passes 14 or 3.
- Alerts.LatestSignal, Alerts.PlotWithIndicator: these use the corrected latest date. Where only one side signalled, or neither did, they report the intended outcome; the program as written raises TypeError at main.py:77 instead. `Alerts.LatestSignalAsWritten` models the behaviour as written and is proved to agree with `Alerts.LatestSignal` whenever it does not raise.
- Prices.Iso: years are padded to four digits. How `%Y` prints years below 1000 depends on the platform, and no date the market-data fetch returns has such a year.
- Table columns: the Open and Volume columns are never read. Timestamps are reduced to calendar days.
- tradingalgotest.py:72-75: the script's fixed choice of 'RSI' is a parameter of `TradingAlgoTest.ScriptSignals`.
- Portfolio simulation: no code in these files simulates trades or portfolio values, so none is modelled.

## Findings

| source | as written | input that shows it | evidently intended | confidence | as-written member | corrected member |
|---|---|---|---|---|---|---|
| main.py:77 | `max(latest_buy_signal, latest_sell_signal)` compares a date with `None` whenever one side never signalled, and raises TypeError | any table on which the chosen rule produced a buy but no sell, a sell but no buy, or neither: a one-bar table with any known indicator (no rule fires on a lone bar), or closes [3, 2] with 'RSI' (a buy at bar 1, no sell) | the later of the dates that exist, or `None` when neither exists, as the guard `if latest_signal_date` on line 79 expects | not executed; high | `Alerts.OneSidedSignalsRaise`, `Alerts.SingleBarRaises` | `Alerts.LatestSignalDate` |

`Alerts.MaxAsWritten` models line 77 as written, and `Alerts.LatestSignalAsWritten` models
lines 60-80 around it. `Alerts.LatestSignal` and `Alerts.PlotWithIndicator` use the corrected
`Alerts.LatestSignalDate`.
