# Crypto invest app: indicators and trading strategies in Dafny

This project models the analysis core of the crypto investment dashboard. The
dashboard takes a table of daily closing prices and adds three technical
indicators to it:

- RSI, the relative strength index;
- Bollinger Bands;
- MACD, with its signal line.

It also adds a 20-row simple moving average and a span-10 exponential moving
average. Three rule engines then turn the indicator columns into one trading
label per row: `Buy`, `Sell` or `Do nothing`.

The Dafny modules follow the two source files, plus the primitives that both
of them rely on.

- `Series` (`series.dfy`) models pandas' column primitives:
  - a trailing window, and `rolling(w).mean()`;
  - `rolling(w).std()`, the sample deviation with divisor `w - 1`;
  - `ewm(span, adjust=False).mean()`, the recurrence
    `e[0] = x[0]`, `e[i] = a x[i] + (1 - a) e[i-1]` with `a = 2 / (span + 1)`.

  A NaN cell is `None` of `Option<real>`. A rolling column is `None` until
  its window is full.
- `Indicators` (`indicators.dfy`) models `calculate_rsi`,
  `calculate_bollinger_bands` and `calculate_macd` of
  `utils/technical_indicators.py`, each as a function from the `Close`
  series to its columns.
  - The RSI division is IEEE 754 division: a positive or negative number
    over 0 is an infinity, and 0 / 0 is NaN. Both infinities give an RSI
    of 100.
- `Strategies` (`strategies.dfy`) models `rsi_strategy`,
  `bollinger_bands_stragy` and `macd_strategy` of `utils/strategies.py`.
  - Each is a method with the source's loop, appending one label per row.
  - Each is proved equal to a specification function, `Classify`, which
    applies a per-row rule.
  - Python's `<` and `>` on a NaN are false. That is the predicate `Less`,
    so a NaN row falls through to `Do nothing`, as it does in the source.
- `Frames` (`frames.dfy`) models the data frame as a class. It has a `close`
  series and a map from column name to column.
  - The three `calculate_*` functions and the two moving-average
    assignments of `app.py` become methods.
  - Each method writes its named columns into the frame in place and
    leaves every other column alone.
  - The three `calculate_*` methods also return the same frame.
    `AddMovingAverages` returns nothing, like the two plain assignments it
    models.
- `Pipeline` (`pipeline.dfy`) models the pass from `Close` to signals, as
  the application chains it:
  - the signals on the computed columns;
  - the behaviour on constant prices;
  - the absence of look-ahead over the whole pass;
  - the RSI of a single-spike price series, worked out in full.

Some consequences of the code are easy to miss:

- **RSI warm-up.** RSI can be defined from index `window - 1`, which is 13
  for the default window of 14. `where` turns the NaN change at index 0 into
  a gain and a loss of 0, so the window ending at index 13 is already full
  (`Indicators.RsiCell`).
- **Labels.** The neutral label is the string `Do nothing`.
- **Spike example.** Take 26 closes of 10, with one 20 at index 15
  (`Pipeline.SpikeScenario`):
  - RSI is NaN up to index 14, because the windows there are flat and
    0 / 0 is NaN.
  - RSI is exactly 100 at index 15, because the average loss there is 0.
  - RSI is 50 from index 16 on.
- **Input checks.** The functions do not validate their input.
- **Mutation.** The indicator functions change the caller's frame in place
  and return it.

## Model

| member | source | states |
|---|---|---|
| Series.RollingMean | utils/technical_indicators.py:16-17 | the rolling-mean column has one cell per row, undefined exactly in the first `w - 1` rows |
| Series.RollingMeanNonNegativeAll | utils/technical_indicators.py:16-17 | the rolling mean of a non-negative series is non-negative at every defined cell |
| Series.RollingMeanAt | utils/technical_indicators.py:16-17 | a rolling-mean cell is defined exactly when `i + 1 >= w`; then it is the mean of the trailing `w` values |
| Series.RollingMeanBounds | utils/technical_indicators.py:37 | a defined rolling mean lies within any bounds that hold for the whole series |
| Series.RollingMeanNonNegative | utils/technical_indicators.py:16-17 | the rolling mean of a non-negative series is non-negative wherever it is defined |
| Series.RollingMeanFlat | utils/technical_indicators.py:37 | over a window of equal values, the rolling mean is that value |
| Series.RollingMeanPrefix | utils/technical_indicators.py:16-17 | the rolling mean of a prefix is the prefix of the rolling mean, so there is no look-ahead |
| Series.SampleVariance | utils/technical_indicators.py:38 | the sample variance, with divisor `n - 1`, is never negative |
| Series.RollingStd | utils/technical_indicators.py:38 | the rolling-deviation column has one cell per row, defined exactly when `w >= 2` and the window is full |
| Series.RollingStdAt | utils/technical_indicators.py:38 | a rolling-deviation cell is defined exactly when `w >= 2` and the window is full; it is then non-negative and its square is the window's sample variance |
| Series.RollingStdFlat | utils/technical_indicators.py:38 | over a window of equal values, the rolling deviation is 0 |
| Series.RollingStdPrefix | utils/technical_indicators.py:38 | the rolling deviation of a prefix is the prefix of the rolling deviation |
| Series.Alpha | utils/technical_indicators.py:60-61 | the smoothing factor `2 / (span + 1)` lies in (0, 1] for every span of at least 1 |
| Series.Ewm | utils/technical_indicators.py:60-61 | the EWM column has one value per input row |
| Series.EwmFirst | utils/technical_indicators.py:60-61 | with `adjust=False`, the first EWM value is the first input |
| Series.EwmRecurrence | utils/technical_indicators.py:60-61 | each later EWM value is `a x[i] + (1 - a) e[i-1]` with `a = 2 / (span + 1)` |
| Series.EwmBounds | utils/technical_indicators.py:60-61 | the EWM stays within any bounds that hold for its inputs |
| Series.EwmFlat | app.py:36 | the EWM of a constant series is that constant at every row |
| Series.EwmPrefix | utils/technical_indicators.py:60-61 | the EWM of a prefix is the prefix of the EWM |
| Series.Defined | utils/technical_indicators.py:62-63 | a fully computed series becomes a column that is defined, with the same value, at every row |
| Indicators.AddCells | utils/technical_indicators.py:39 | a sum of cells is defined exactly when both operands are, so NaN propagates |
| Indicators.SubCells | utils/technical_indicators.py:40 | a difference of cells is defined exactly when both operands are |
| Indicators.ScaleCell | utils/technical_indicators.py:39-40 | a scaled cell is defined exactly when its operand is |
| Indicators.Diff | utils/technical_indicators.py:13 | `diff(1)` has one cell per close |
| Indicators.GainOf | utils/technical_indicators.py:14 | a gain cell is non-negative, positive exactly for a defined rise, and then equal to that rise |
| Indicators.LossOf | utils/technical_indicators.py:15 | a loss cell is non-negative, positive exactly for a defined fall, and then equal to the size of that fall |
| Indicators.Gain | utils/technical_indicators.py:13-14 | the gain column is 0 in the first row, and after that it is the rise from the previous close, or 0 where the close did not rise |
| Indicators.Loss | utils/technical_indicators.py:13-15 | the loss column is 0 in the first row, and after that it is the fall from the previous close, or 0 where the close did not fall |
| Indicators.GainLossSplit | utils/technical_indicators.py:13-15 | gain and loss are non-negative and never both non-zero; both are 0 at index 0, where the change is NaN; gain minus loss is the change in close |
| Indicators.AverageGain | utils/technical_indicators.py:16 | the average gain is undefined exactly in the first `window - 1` rows and never negative where it is defined |
| Indicators.AverageLoss | utils/technical_indicators.py:17 | the average loss is undefined exactly in the first `window - 1` rows and never negative where it is defined |
| Indicators.AveragesNonNegative | utils/technical_indicators.py:16-17 | the average gain and the average loss are non-negative wherever they are defined |
| Indicators.Divide | utils/technical_indicators.py:18 | a float division is finite exactly when both operands are defined and the divisor is non-zero; it is NaN exactly when an operand is NaN or both are 0 |
| Indicators.RsiOf | utils/technical_indicators.py:19 | `100 - 100 / (1 + rs)` is NaN exactly when `rs` is NaN; otherwise it lies in [0, 100], is 100 for an infinite `rs` and 0 for `rs = 0` |
| Indicators.RsiAt | utils/technical_indicators.py:16-19 | an RSI cell is undefined in the first `window - 1` rows and lies in [0, 100] wherever it is defined |
| Indicators.RsiOfAverages | utils/technical_indicators.py:18-19 | `100 - 100 / (1 + g / l)` is `100 g / (g + l)`, including the infinite ratio when `l = 0 < g`; it is undefined when `g = l = 0` |
| Indicators.RsiFormula | utils/technical_indicators.py:19 | for `l > 0`, `100 - 100 / (1 + g / l)` equals `100 g / (g + l)` |
| Indicators.RsiCell | utils/technical_indicators.py:13-19 | RSI is undefined for the first `window - 1` rows; after that it is `100 g / (g + l)` of the window's average gain and loss, and undefined when both are 0 |
| Indicators.RsiCases | utils/technical_indicators.py:16-19 | once the window is full: no average loss gives 100, no average gain gives 0, neither gives undefined, and both give a value strictly between 0 and 100 |
| Indicators.RsiRange | utils/technical_indicators.py:19 | every defined RSI value lies in [0, 100] |
| Indicators.Rsi | utils/technical_indicators.py:13-19 | the RSI column has one cell per close |
| Indicators.RsiPrefix | utils/technical_indicators.py:13-19 | the RSI of a prefix of the closes is the prefix of the RSI |
| Indicators.GainLossPrefix | utils/technical_indicators.py:13-15 | the gains and losses of a prefix are the prefix of the gains and losses |
| Indicators.BollingerUpper | utils/technical_indicators.py:39 | the upper band has one cell per close |
| Indicators.BollingerLower | utils/technical_indicators.py:40 | the lower band has one cell per close |
| Indicators.BollingerCell | utils/technical_indicators.py:37-40 | both bands are defined exactly when `window >= 2` and the window is full; they then sit exactly two deviations above and below the moving average, so `lower <= sma <= upper` |
| Indicators.BollingerShortSeries | utils/technical_indicators.py:37-40 | a series shorter than the window has no band values |
| Indicators.BollingerFlat | utils/technical_indicators.py:37-40 | over a window of equal closes, both bands equal that close |
| Indicators.BollingerPrefix | utils/technical_indicators.py:37-40 | the bands of a prefix are the prefix of the bands |
| Indicators.MacdLine | utils/technical_indicators.py:60-62 | the MACD line has one value per close |
| Indicators.SignalLine | utils/technical_indicators.py:63 | the signal line has one value per close |
| Indicators.MacdBounds | utils/technical_indicators.py:60-63 | if the closes lie in `[lo, hi]`, then MACD and its signal line lie in `[lo - hi, hi - lo]` |
| Indicators.MacdFlat | utils/technical_indicators.py:60-63 | on a constant series, MACD and its signal line are 0 at every row |
| Indicators.MacdPrefix | utils/technical_indicators.py:60-63 | MACD and its signal line on a prefix are the prefixes of the lines |
| Strategies.RsiRule | utils/strategies.py:13-18 | each RSI row gets one of the three labels |
| Strategies.BollingerRule | utils/strategies.py:32-37 | each Bollinger row gets one of the three labels |
| Strategies.MacdRule | utils/strategies.py:50-55 | each MACD row gets one of the three labels |
| Strategies.Zip2 | utils/strategies.py:49 | `zip` yields as many rows as the shorter column has, row `i` pairing the two cells at `i` |
| Strategies.Zip3 | utils/strategies.py:31 | `zip` of three columns yields as many rows as the shortest has, row `i` holding the cells at `i` |
| Strategies.Classify | utils/strategies.py:11-19 | a strategy emits exactly one label per row |
| Strategies.ClassifyAt | utils/strategies.py:11-19 | label `i` depends on row `i` alone: it is the rule applied to that row |
| Strategies.ClassifyPrefix | utils/strategies.py:11-19 | the labels of a prefix of the rows are the prefix of the labels |
| Strategies.ClassifyLabels | utils/strategies.py:11-19 | every emitted label is `Buy`, `Sell` or `Do nothing` |
| Strategies.RsiStrategy | utils/strategies.py:11-19 | the loop returns one label per RSI cell, label `i` being the RSI rule on cell `i` |
| Strategies.BollingerBandsStragy | utils/strategies.py:30-38 | the loop returns one label per zipped row, label `i` being the Bollinger rule on close, upper and lower at `i` |
| Strategies.MacdStrategy | utils/strategies.py:48-56 | the loop returns one label per zipped row, label `i` being the MACD rule on MACD and signal at `i` |
| Strategies.RsiRuleThresholds | utils/strategies.py:12-18 | buy if and only if RSI is defined and below 30; sell if and only if it is defined and above 70; do nothing if and only if it is NaN or within [30, 70] |
| Strategies.BollingerRuleCases | utils/strategies.py:31-37 | the buy test comes first: buy if and only if the close is below the lower band, whatever the upper band is; sell if and only if the close is not below the lower band and is above the upper band; do nothing if and only if the close is within the bands. With ordered bands, the two conditions never both hold and sell is exactly a close above the upper band |
| Strategies.MacdRuleCases | utils/strategies.py:49-55 | buy if and only if MACD is above its signal, sell if and only if it is below; an exact tie or a NaN does nothing |
| Strategies.UndefinedDoesNothing | utils/strategies.py:12-18 | a NaN indicator value never gives a trade signal in any of the three rules |
| Frames.DataFrame.constructor | app.py:27-30 | a new frame holds the downloaded close series and no added column, so all its columns are aligned |
| Frames.CalculateRsi | utils/technical_indicators.py:2-20 | writes exactly the `RSI` column (the RSI of `Close`), keeps `Close` and every other column, keeps all columns aligned, and returns the same frame |
| Frames.CalculateBollingerBands | utils/technical_indicators.py:23-41 | writes exactly `Bollinger_Upper` and `Bollinger_Lower`, keeps everything else, keeps all columns aligned, and returns the same frame |
| Frames.CalculateMacd | utils/technical_indicators.py:44-64 | writes exactly `MACD` and `Signal_Line` (the EWM of the MACD column just written), keeps everything else, keeps all columns aligned, and returns the same frame |
| Frames.AddMovingAverages | app.py:35-36 | writes `SMA_20` (the 20-row rolling mean) and `EMA_10` (the span-10 EWM) and keeps all columns aligned |
| Pipeline.RsiSignals | utils/strategies.py:11-19 | the RSI strategy on a computed RSI column gives one label per close |
| Pipeline.BollingerSignals | utils/strategies.py:30-38 | the Bollinger strategy on computed bands gives one label per close |
| Pipeline.MacdSignals | utils/strategies.py:48-56 | the MACD strategy on computed lines gives one label per close |
| Pipeline.RsiSignalsOnRsi | utils/strategies.py:11-19 | on computed RSI: no trade in the warm-up rows; buy if and only if RSI is defined and below 30; sell if and only if it is defined and above 70 |
| Pipeline.BollingerSignalsOnBands | utils/strategies.py:30-38 | on computed bands: no trade where the bands are undefined; elsewhere, buy, sell and nothing exactly for a close below, above and between the bands |
| Pipeline.ConstantRsi | utils/technical_indicators.py:13-19 | for constant closes, RSI is undefined everywhere (0 / 0) and the RSI strategy never trades |
| Pipeline.ConstantBands | utils/technical_indicators.py:37-40 | for constant closes, every defined band equals the close and the Bollinger strategy never trades |
| Pipeline.ConstantMacd | utils/strategies.py:49-55 | for constant closes, MACD and the signal line tie at 0, so the MACD strategy never trades |
| Pipeline.NoLookAhead | utils/technical_indicators.py:13-63 | running the whole pass on the first `k` closes gives the first `k` cells of every indicator column and the first `k` labels of every strategy |
| Pipeline.SpikeScenario | utils/technical_indicators.py:13-19 | for closes of 10 with a 20 at index 15, RSI(14) is undefined up to index 14, exactly 100 at 15, and 50 from 16 to 25 |

## Left out

- Floating point: closes and every computed value are exact reals. IEEE
  rounding is not modelled, and neither are overflow or the signed zero of
  `-0.0` in `loss`. NaN and the two infinities of the RSI division are
  modelled, as `None` and the `Quotient` cases.
- Series.RollingStd: the square root comes from the numerical library, so
  the model takes it as a parameter. It is constrained only to return the
  non-negative root of a non-negative number (`Series.IsSqrt`).
- A window or span below 1: every caller passes at least 1. `app.py:37-39`
  uses the defaults 14, 20 and 12/26/9, and `app.py:35-36` uses 20 and 10.
  `requires window >= 1` therefore excludes only cases that no caller
  reaches:
  - a window of 0, which pandas accepts and answers with a column of NaN
    everywhere;
  - a negative window, which pandas rejects;
  - a span below 1, which `ewm` rejects.
- NaN closes: `Close` is a series of defined numbers. pandas' handling of
  NaN inputs inside a rolling window or an EWM is not modelled.
- Column lookup by name: the strategies read `data["RSI"]` and the like.
  The model passes those columns directly, so the `KeyError` for a missing
  column is not modelled. For the same reason, a frame column named `Close`
  is kept apart from the other columns.
- The index of the frame (dates): the model does not carry it.
- `app.py:37` assigns the frame returned by `calculate_rsi` to the single
  column `RSI`. What pandas does with that assignment depends on its
  version, so that call site is not modelled. `Frames.CalculateRsi` models
  the function itself.
- The dashboard in `app.py`: the page layout, charts, date pickers and
  caching are presentation only.
- `utils/data_extraction.py` fetches prices over the network, and
  `utils/gpt_utils.py` calls a hosted language model. Both are I/O.
- `utils/__init__.py` is not part of this model; it only re-exports.
