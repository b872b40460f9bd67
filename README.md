# Forex Simulator — indicator engine and trading state in Dafny

This project models the two core pieces of the Forex Simulator, a browser
application that replays a CSV of OHLC candles and lets a user trade against
the replay.

* **The technical-analysis engine** (`indicators.js`). `analyze` turns a
  candle history of at least 100 bars into two tables:
  - eleven oscillator readings: RSI, Stochastic %K, CCI, ADX, Awesome
    Oscillator, Momentum, MACD histogram, Stochastic RSI, Williams %R,
    Bull/Bear Power and the Ultimate Oscillator;
  - ten moving-average readings: SMA and EMA over 10, 20, 30, 50 and 100 bars.

  Every reading is classified as BUY, SELL or NEUTRAL by fixed thresholds.
* **The simulator state** (`script.js`). This is the `App` object: the loaded
  candles, the replay cursor, the cash balance, the list of open positions and
  the play/pause flag. It covers the current bid/ask quote, opening and closing
  positions, stepping and resetting the replay, and the unrealised-PnL and
  equity totals.

Layout:

| file | module | contents |
|---|---|---|
| `candles.dfy` | `Candles` | the candle record and its close/high/low columns |
| `primitives.dfy` | `Primitives` | tail sums, window max/min, SMA and EMA (methods proved against `SmaSpec`/`EmaSpec`) |
| `signals.dfy` | `Signals` | the BUY/SELL/NEUTRAL classifiers |
| `oscillators.dfy` | `Oscillators` | the eleven oscillators; each loop is a method proved equal to a pure definition, and range, shift-invariance and flat-input lemmas are proved about those definitions |
| `report.dfy` | `Report` | `analyze`: the two tables, their order, labels and classifiers |
| `trading.dfy` | `Trading` | the `App` class, position PnL and equity |

Prices are `real`. Each loop of the JavaScript is a Dafny `method` with loop
invariants whose `ensures` ties its result to a pure specification function.
The range, invariance and equity properties are lemmas about those functions.
Where the engine writes `x || 1` for a zero denominator, the model uses 1.

## Model

| member | source | states |
|---|---|---|
| `Candles.Closes` | indicators.js:9 | the close column has one entry per candle, in order |
| `Candles.Highs` | indicators.js:10 | the high column has one entry per candle, in order |
| `Candles.Lows` | indicators.js:11 | the low column has one entry per candle, in order |
| `Primitives.SmaSpec` | indicators.js:90-95 | SMA is the sentinel 0 when there are fewer values than the period |
| `Primitives.Sma` | indicators.js:90-95 | the summing loop returns the mean of the last `len` values, or 0 when there are fewer |
| `Primitives.SmaWithinRange` | indicators.js:90-95 | when every value lies in [lo, hi], the SMA does too |
| `Primitives.SmaOfConstant` | indicators.js:90-95 | the SMA of a constant series is that constant |
| `Primitives.SmaShift` | indicators.js:90-95 | adding d to every value adds d to the SMA |
| `Primitives.Smoothing` | indicators.js:99 | the EMA factor 2/(len+1) lies in (0, 1] |
| `Primitives.EmaSpec` | indicators.js:97-105 | EMA is the sentinel 0 when there are fewer values than the period |
| `Primitives.Ema` | indicators.js:97-105 | the loop seeded with data[0] returns the recurrence over the whole history, or 0 when there are fewer than `len` values |
| `Primitives.EmaAtWithinRange` | indicators.js:100-103 | the EMA recurrence stays inside any interval that holds every value |
| `Primitives.EmaWithinRange` | indicators.js:97-105 | when every value lies in [lo, hi], the EMA does too |
| `Primitives.EmaAtOfConstant` | indicators.js:100-103 | the EMA of a constant series is that constant |
| `Primitives.EmaAtShift` | indicators.js:100-103 | adding d to every value adds d to the EMA |
| `Primitives.MaxIsGreatest` | indicators.js:139 | `Math.max` of a window is at least every element and is one of them |
| `Primitives.MinIsLeast` | indicators.js:140 | `Math.min` of a window is at most every element and is one of them |
| `Primitives.MaxMinShift` | indicators.js:139-140 | shifting a window by d shifts its max and min by d |
| `Primitives.TailSumBounds` | indicators.js:93 | a sum of n values in [lo, hi] lies in [n·lo, n·hi] |
| `Primitives.TailSum` | indicators.js:93 | the sum of the last n values that the summing loops accumulate; bounded by `TailSumBounds` |
| `Primitives.Max` | indicators.js:139 | `Math.max` over a window, folded from the left; `MaxIsGreatest` proves it the greatest element |
| `Primitives.Min` | indicators.js:140 | `Math.min` over a window, folded from the left; `MinIsLeast` proves it the least element |
| `Primitives.EmaAt` | indicators.js:100-103 | the EMA recurrence v·k + ema·(1 − k) over the first n values, seeded with data[0]; kept inside any interval holding the values (`EmaAtWithinRange`) |
| `Primitives.SmaBelowLast` | indicators.js:90-95 | over a strictly increasing series, an SMA of two or more values is below the last value |
| `Primitives.EmaAtBelowLast` | indicators.js:100-103 | with a factor in (0, 1), the EMA recurrence over a strictly increasing series, after two or more values, is below the newest value |
| `Primitives.EmaBelowLast` | indicators.js:97-105 | for a period of at least 2, the EMA of a strictly increasing series is below its last value |
| `Signals.Band` | indicators.js:80-85 | the three-way rule: BUY exactly below the lower bound, SELL exactly above the upper bound, NEUTRAL in between (bounds included) |
| `Signals.CheckRsi` | indicators.js:80 | BUY iff v < 30, SELL iff v > 70, NEUTRAL iff 30 ≤ v ≤ 70 |
| `Signals.CheckStoch` | indicators.js:81 | BUY iff v < 20, SELL iff v > 80, NEUTRAL iff 20 ≤ v ≤ 80 |
| `Signals.CheckCci` | indicators.js:82 | BUY iff v < -100, SELL iff v > 100, NEUTRAL otherwise |
| `Signals.CheckAdx` | indicators.js:83 | BUY iff adx > 25 and +DI > -DI; SELL iff adx > 25 and -DI > +DI; NEUTRAL iff adx ≤ 25 or the DIs tie |
| `Signals.CheckZero` | indicators.js:84 | BUY iff positive, SELL iff negative, NEUTRAL iff zero |
| `Signals.CheckWpr` | indicators.js:85 | BUY iff v < -80, SELL iff v > -20, NEUTRAL otherwise |
| `Signals.CheckMa` | indicators.js:86 | never NEUTRAL; BUY iff the price is strictly above the average |
| `Signals.CheckRsiReading` | indicators.js:80 | `checkRsi` on a reading that may be missing: no reading (the engine's NaN, for which both comparisons are false) is NEUTRAL; otherwise BUY iff v < 30 and SELL iff v > 70 |
| `Oscillators.SeedSums` | indicators.js:109-113 | the seed gain and loss sums are non-negative |
| `Oscillators.WilderAverage` | indicators.js:120-124 | one step of Wilder's average, (prev·(len − 1) + x)/len; kept inside [lo, hi] by `WilderAverageBounds` |
| `Oscillators.WilderAverageBounds` | indicators.js:120-124 | Wilder's average of values inside [lo, hi] stays inside it |
| `Oscillators.WilderStep` | indicators.js:119-125 | one Wilder step keeps both averages non-negative |
| `Oscillators.WilderState` | indicators.js:107-126 | the averages after the seed and every later step are non-negative |
| `Oscillators.RsiOf` | indicators.js:127-128 | RSI lies in [0, 100]; it is 100 iff the average loss is 0, and 0 iff the average gain is 0 while the loss is positive |
| `Oscillators.RsiSpec` | indicators.js:107-129 | RSI lies in [0, 100] and is 50 with at most `len` values |
| `Oscillators.Rsi` | indicators.js:107-129 | the two loops return Wilder's RSI of the definition `RsiSpec` |
| `Oscillators.RsiOfNonDecreasing` | indicators.js:107-129 | a series that never falls has RSI 100 |
| `Oscillators.RsiOfStrictlyDecreasing` | indicators.js:107-129 | a series that falls at every step has RSI 0 |
| `Oscillators.RangePercent` | indicators.js:141 | a price inside [low, high] maps into [0, 100] |
| `Oscillators.RawK` | indicators.js:137-142 | raw %K of bar i: 50 before a full window, otherwise the close's position between the lowest low and highest high of the last `period` bars; in [0, 100] by `RawKInRange` |
| `Oscillators.RawKs` | indicators.js:137-142 | one raw %K per bar from `start`, each the range position of the close, or 50 before a full window |
| `Oscillators.CollectRawKs` | indicators.js:137-142 | the raw-%K loop produces exactly `RawKs` |
| `Oscillators.SmoothedKs` | indicators.js:144-150 | the smoothed %K sequence has one entry per raw %K, each the mean of the last `kSmooth` raw values, or the raw value before a full window |
| `Oscillators.SmoothAt` | indicators.js:144-150 | one smoothed %K: the raw value before a full window, otherwise the mean of the last `kSmooth` raw values |
| `Oscillators.SmoothRawKs` | indicators.js:144-150 | the smoothing loop produces exactly `SmoothedKs` |
| `Oscillators.WindowSum` | indicators.js:327-331 | the window loop sums the last `p` values, or all of them when there are fewer |
| `Oscillators.TrailingStart` | indicators.js:134-135 | the slice starts `needed` bars from the end, or at 0 |
| `Oscillators.StochSpec` | indicators.js:131-157 | %K is the last smoothed raw %K over the trailing slice and %D the mean of the last `dSmooth` of them; in [0, 100] by `StochInRange` |
| `Oscillators.Stoch` | indicators.js:131-157 | the Stochastic loops return %K and %D of `StochSpec` |
| `Oscillators.RawKInRange` | indicators.js:137-142 | with closes inside their bars' ranges, every raw %K lies in [0, 100] |
| `Oscillators.SmoothedInRange` | indicators.js:144-150 | smoothing keeps readings in [0, 100] |
| `Oscillators.WindowMeanInRange` | indicators.js:152-155 | %D, the mean over the window, lies in [0, 100] |
| `Oscillators.StochInRange` | indicators.js:131-157 | on well-formed bars %K and %D both lie in [0, 100] |
| `Oscillators.Wpr` | indicators.js:304-310 | Williams %R is -50 with fewer than `len` bars |
| `Oscillators.WprInRange` | indicators.js:304-310 | on well-formed bars %R lies in [-100, 0] |
| `Oscillators.WprIsRawKMinus100` | indicators.js:304-310 | %R is the Stochastic raw %K of the same window minus 100 |
| `Oscillators.WprShift` | indicators.js:304-310 | %R is unchanged when all prices shift by the same amount |
| `Oscillators.PercentR` | indicators.js:309 | %R = (h − c)/(h − l, or 1 when that is 0)·(−100): 0 at the high and −100 at the low; in [−100, 0] on well-formed bars by `WprInRange` |
| `Oscillators.PercentRInRange` | indicators.js:309 | a close inside [low, high] has a %R in [−100, 0] |
| `Oscillators.TypicalPrices` | indicators.js:161-165 | one typical price (h+l+c)/3 per bar from `start` |
| `Oscillators.TypicalPriceValues` | indicators.js:161-165 | the typical-price loop produces exactly `TypicalPrices` |
| `Oscillators.TypicalPrice` | indicators.js:161 | the typical price (h + l + c)/3 of one bar |
| `Oscillators.AbsDeviationSum` | indicators.js:171-173 | the deviation loop sums the absolute deviations of the last `len` values from the centre |
| `Oscillators.TailAbsDev` | indicators.js:171-173 | the sum of |x − centre| over the last n values; unchanged by a joint shift (`TailAbsDevShift`) |
| `Oscillators.CciOf` | indicators.js:166-175 | CCI = (tp − mean)/(0.015·mean deviation), 0 when the mean deviation is 0; shift-invariant by `CciOfShift` |
| `Oscillators.CciSpec` | indicators.js:159-176 | CCI is 0 with fewer than `len` bars |
| `Oscillators.Cci` | indicators.js:159-176 | the CCI loops return `CciSpec` |
| `Oscillators.TailAbsDevShift` | indicators.js:171-173 | shifting the values and the centre together leaves the deviation sum unchanged |
| `Oscillators.CciOfShift` | indicators.js:166-175 | CCI of shifted typical prices is unchanged |
| `Oscillators.CciShift` | indicators.js:159-176 | CCI is unchanged when all prices shift by the same amount |
| `Oscillators.TrueRange` | indicators.js:196 | the true range is non-negative and at least high − low |
| `Oscillators.DirectionalMove` | indicators.js:197-200 | +DM and −DM are non-negative, at most one is non-zero, and each is the move only when it dominates and is positive |
| `Oscillators.MoveAt` | indicators.js:197-200 | the +DM/−DM pair of bar i from the change of its high and of its low against bar i − 1 |
| `Oscillators.AdxStart` | indicators.js:192 | the ADX slice starts at bar 1 or later and, with at least 2·len bars, keeps at least 2·len − 1 of them |
| `Oscillators.TrueRanges` | indicators.js:194-201 | one true range per bar from `start`, against the previous close |
| `Oscillators.PlusMoves` | indicators.js:194-201 | one +DM per bar from `start` |
| `Oscillators.MinusMoves` | indicators.js:194-201 | one −DM per bar from `start` |
| `Oscillators.BarMovements` | indicators.js:194-201 | the bar loop produces exactly the TR, +DM and −DM sequences |
| `Oscillators.Smoothed` | indicators.js:182-190 | Wilder's running sum has one value per bar after the seed window, each the recurrence `val − val/len + src[i]` |
| `Oscillators.WilderSum` | indicators.js:182-190 | Wilder's running sum at bar i: the seed-window sum, then `val − val/len + src[i]`; non-negative on non-negative input by `WilderSumNonNegative` |
| `Oscillators.WilderSmooth` | indicators.js:182-190 | the smoothing loop produces exactly `Smoothed` |
| `Oscillators.WilderSumNonNegative` | indicators.js:182-190 | smoothing non-negative inputs stays non-negative |
| `Oscillators.Dx` | indicators.js:208-212 | with non-negative smoothed inputs, DX lies in [0, 100] |
| `Oscillators.DirectionalIndex` | indicators.js:209-210 | +DI or −DI: 100 · smoothed move / smoothed true range, a zero range replaced by 1; also the last-bar DIs of indicators.js:223-224 |
| `Oscillators.DxSeries` | indicators.js:207-213 | one DX per smoothed bar |
| `Oscillators.DxValues` | indicators.js:207-213 | the DX loop produces exactly `DxSeries` |
| `Oscillators.AdxAverage` | indicators.js:215-218 | the averaging loop returns the seed mean of DX continued by Wilder's average to the last bar |
| `Oscillators.AdxAt` | indicators.js:215-218 | ADX at bar i: the mean of the first `len` DX values, then Wilder's average; in [0, 100] by `AdxAtInRange` |
| `Oscillators.AdxOf` | indicators.js:207-225 | ADX from the smoothed sums, with +DI and −DI of the last bar; bounded by `AdxOfInRange` |
| `Oscillators.AdxSpec` | indicators.js:178-226 | ADX, +DI and −DI are all 0 with fewer than 2·len bars |
| `Oscillators.Adx` | indicators.js:178-226 | the ADX loops return `AdxSpec` |
| `Oscillators.AdxAtInRange` | indicators.js:215-218 | averaging DX values in [0, 100] stays in [0, 100] |
| `Oscillators.AdxOfInRange` | indicators.js:207-225 | from non-negative smoothed sums ADX lies in [0, 100] and both DIs are non-negative |
| `Oscillators.AdxInRange` | indicators.js:178-226 | for every bar history ADX lies in [0, 100] and +DI, −DI are non-negative |
| `Oscillators.Midpoints` | indicators.js:230 | one midpoint (h+l)/2 per bar |
| `Oscillators.Ao` | indicators.js:228-234 | AO is 0 with fewer than 34 bars |
| `Oscillators.AoShift` | indicators.js:228-234 | AO is unchanged when all prices shift by the same amount |
| `Oscillators.AoOfFlat` | indicators.js:228-234 | AO is 0 when every midpoint is the same |
| `Oscillators.MomAsWritten` | indicators.js:236-239 | momentum as written: defined exactly when the length differs from `len`, and 0 below it |
| `Oscillators.MomAsWrittenUndefinedAtLength` | indicators.js:237-238 | with exactly `len` bars the engine's momentum has no value, while the corrected `Mom` gives 0 |
| `Oscillators.Mom` | indicators.js:236-239 | corrected momentum: 0 whenever there is no close `len` bars back |
| `Oscillators.MomAgreesWhereDefined` | indicators.js:236-239 | the engine's momentum is defined iff the length differs from `len`, and then equals `Mom` |
| `Oscillators.MomOfNonDecreasing` | indicators.js:236-239 | momentum of a non-decreasing series is ≥ 0, and of a constant series 0 |
| `Oscillators.EmaSeriesSpec` | indicators.js:242-251 | MACD's EMA series has one value per input, the EMA recurrence seeded with data[0] and with no sentinel |
| `Oscillators.EmaSeries` | indicators.js:242-251 | the inner `ema` loop produces exactly `EmaSeriesSpec` |
| `Oscillators.MacdLine` | indicators.js:254 | the MACD line is the pointwise difference of the fast and slow EMA series |
| `Oscillators.MacdSpec` | indicators.js:241-259 | MACD is the last fast-minus-slow EMA value, the signal the last EMA of that line, the histogram their difference; `MacdShift` and `MacdOfConstant` prove its properties |
| `Oscillators.Macd` | indicators.js:241-259 | the MACD loops return the last MACD value, its signal and their difference, as `MacdSpec` gives them |
| `Oscillators.MacdShift` | indicators.js:241-259 | MACD, signal and histogram are unchanged when all closes shift by the same amount |
| `Oscillators.MacdOfConstant` | indicators.js:241-259 | a constant series has MACD, signal and histogram 0 |
| `Oscillators.RsiSeries` | indicators.js:264-283 | the Stochastic RSI's RSI series has one reading after the seed and one per later bar, each `RsiOf` of Wilder's state |
| `Oscillators.RsiReadingAsWritten` | indicators.js:271 | the engine's unguarded RSI formula is undefined exactly when both averages are 0, and otherwise equals `RsiOf` |
| `Oscillators.SeedSumsOfFlat` | indicators.js:265-269 | on a flat series both seed sums are 0 |
| `Oscillators.FlatWindowRsiReadingUndefined` | indicators.js:264-271 | a flat window leaves the engine's first Stochastic-RSI reading undefined, where the corrected series gives 100 |
| `Oscillators.StochRsiSubset` | indicators.js:262-263 | the Stochastic RSI looks at the last 200 closes, or all of them: the result is the suffix of that length |
| `Oscillators.StochRsiSpec` | indicators.js:261-302 | the last smoothed raw %K of the RSI series over the last 200 closes (the RSI series stands for all three price inputs); in [0, 100] by `StochRsiInRange` |
| `Oscillators.RsiValues` | indicators.js:264-283 | the two RSI loops produce exactly `RsiSeries` |
| `Oscillators.StochRsi` | indicators.js:261-302 | the Stochastic-RSI loops return the last smoothed %K of `StochRsiSpec` |
| `Oscillators.StochRsiInRange` | indicators.js:261-302 | the Stochastic RSI of the corrected reading lies in [0, 100] |
| `Oscillators.Bbp` | indicators.js:312-316 | with fewer than `len` bars the EMA sentinel 0 makes BBP the raw last high plus last low |
| `Oscillators.BbpShift` | indicators.js:312-316 | with at least `len` bars, BBP is unchanged when all prices shift by the same amount |
| `Oscillators.BbpOfFlat` | indicators.js:312-316 | BBP is 0 on flat bars |
| `Oscillators.UoStart` | indicators.js:319 | the UO slice starts at bar 1 or later |
| `Oscillators.Pressures` | indicators.js:321-325 | one buying pressure c − min(l, pc) per bar from `start` |
| `Oscillators.UoRanges` | indicators.js:321-325 | one range max(h, pc) − min(l, pc) per bar from `start` |
| `Oscillators.BuyingPressure` | indicators.js:323 | the buying pressure c − min(l, pc) of one bar |
| `Oscillators.UoRange` | indicators.js:324 | the range max(h, pc) − min(l, pc) of one bar |
| `Oscillators.UoDefined` | indicators.js:327-335 | the condition under which every window sum reads inside the slice and every range sum is non-zero, i.e. the engine's three divisions are defined |
| `Oscillators.UoSpec` | indicators.js:318-338 | UO has a value exactly when the history is non-empty, every period fits in the slice and every window's range sum is non-zero; otherwise it is missing, which is where the engine's result is NaN on well-formed bars, and NaN or ±Infinity on malformed ones |
| `Oscillators.UoOf` | indicators.js:333-337 | the weighted average 100·(4·a1 + 2·a2 + a3)/7 of the three pressure ratios |
| `Oscillators.WeightedPressure` | indicators.js:327-337 | the window sums: missing exactly when a period exceeds the slice or a range sum is 0, otherwise `UoOf` |
| `Oscillators.BarPressures` | indicators.js:321-325 | the bar loop produces exactly the pressure and range sequences |
| `Oscillators.Uo` | indicators.js:318-338 | the UO loops return `UoSpec`: no value where the engine computes NaN, otherwise the weighted average 100·(4·a1 + 2·a2 + a3)/7 |
| `Oscillators.PressureWithinRange` | indicators.js:323-324 | on a well-formed bar the buying pressure lies between 0 and the bar's range |
| `Oscillators.PressureRatioInRange` | indicators.js:333-335 | each ratio sum(bp)/sum(tr) lies in [0, 1] |
| `Oscillators.UoOfInRange` | indicators.js:333-337 | when every pressure lies between 0 and its range, the weighted average lies in [0, 100] |
| `Oscillators.ZeroRangeWindowIsZeroOverZero` | indicators.js:321-335 | on well-formed bars a window whose range sum is 0 also has pressure sum 0, so the engine's ratio there is 0/0 (NaN), never ±Infinity |
| `Oscillators.UoInRange` | indicators.js:318-338 | on well-formed bars UO, whenever it has a value, lies in [0, 100] |
| `Report.ClassifiedOscillators` | indicators.js:19-61 | the oscillator table has eleven rows with the engine's labels in the engine's order; the first ten carry a value and the UO row carries UO's reading, possibly missing |
| `Report.OscillatorRows` | indicators.js:19-61 | the eleven calculators applied to the history's columns with the engine's periods, in the engine's order |
| `Report.MaRows` | indicators.js:64-70 | two rows per period |
| `Report.MaPair` | indicators.js:64-69 | the SMA row and then the EMA row of one period, each classified against the current price |
| `Report.MaLabel` | indicators.js:66 | the label `${kind} (${p})` of a moving-average row |
| `Report.NatToString` | indicators.js:66 | the decimal digits of the period as the template literal prints them (at least one digit) |
| `Report.AnalyzeSpec` | indicators.js:6-73 | for every history: no report iff fewer than 100 candles; otherwise 11 oscillator rows and 10 moving-average rows |
| `Report.OscillatorTable` | indicators.js:17-61 | calling each calculator and classifier in turn produces exactly `OscillatorRows` |
| `Report.MovingAverageTable` | indicators.js:63-70 | the loop over 10, 20, 30, 50, 100 produces exactly `MaRows` |
| `Report.Analyze` | indicators.js:6-73 | `analyze` returns `AnalyzeSpec` |
| `Report.MaRowsNeverNeutral` | indicators.js:64-70 | no moving-average row is NEUTRAL, and a row is BUY iff the current price is above its average |
| `Report.MaRowsLayout` | indicators.js:64-70 | row 2i is the SMA of the i-th period and row 2i+1 its EMA, each classified against the current price |
| `Report.MaLabels` | indicators.js:66-69 | the labels read "SMA (10)", "EMA (10)", … "EMA (100)" |
| `Report.MaTableNames` | indicators.js:63-70 | the moving-average table's rows carry the ten labels in order |
| `Report.MaTableLayout` | indicators.js:63-70 | the moving-average table carries the ten labels in order and no NEUTRAL row |
| `Report.AnalyzeBounded` | indicators.js:19-61 | on well-formed candles RSI, Stoch %K, ADX and the corrected Stoch RSI lie in [0, 100], %R in [-100, 0], and UO, when it has a value, in [0, 100] |
| `Report.ConstantReadings` | indicators.js:19-61 | on bars whose prices all equal c: RSI is 100; AO, Momentum, the MACD histogram and BBP are 0; UO has no value |
| `Report.ConstantHistoryOscillators` | indicators.js:19-61 | the report of a constant-price history: RSI row 100 and SELL; AO, Mom, MACD and BBP rows 0 and NEUTRAL; UO row without a value and NEUTRAL |
| `Report.ConstantMaRows` | indicators.js:63-70 | on a constant-price history every moving-average row equals the price and is SELL |
| `Report.IncreasingHistoryMaRowsBuy` | indicators.js:63-70 | on a strictly increasing history of at least 100 closes every average lags below the current price, so every moving-average row is BUY |
| `Trading.Direction` | script.js:284 | the PnL direction is +1 or −1 |
| `Trading.EntryPrice` | script.js:258 | a position opens at the ask for BUY and at the bid for SELL |
| `Trading.ExitPrice` | script.js:280 | a position closes at the bid for BUY and at the ask for SELL |
| `Trading.FindIndex` | script.js:275 | `findIndex`: −1 iff no position has the id; otherwise the first position with it |
| `Trading.PositionPnl` | script.js:280-285 | for a position of positive size, PnL is positive iff the market moved its way (bid above entry for BUY, ask below entry for SELL) and 0 iff the exit price equals the entry |
| `Trading.TotalPnl` | script.js:309-316 | the unrealised PnL summed over the positions; additive over concatenation (`TotalPnlConcat`) |
| `Trading.Equity` | script.js:318 | balance plus unrealised PnL; unchanged by a close (`ClosePosition`) and lowered by the spread by an open (`OpenPosition`) |
| `Trading.RemoveAt` | script.js:288 | `splice(index, 1)`: the positions before index stay, the later ones move down by one |
| `Trading.TotalPnlConcat` | script.js:309-316 | the unrealised PnL of two lists joined is the sum of their PnLs |
| `Trading.TotalPnlAppend` | script.js:269 | pushing a position adds its PnL to the total |
| `Trading.TotalPnlRemoveAt` | script.js:285-288 | removing a position removes exactly its PnL from the total |
| `Trading.CloseKeepsEquity` | script.js:285-288 | realising a position's PnL into the balance while splicing it out leaves the equity unchanged |
| `Trading.AppendedIdIsLast` | script.js:275 | after pushing a position under an id no other position has, `findIndex` finds it at the end, and splicing it out restores the list |
| `Trading.FreshPositionCostsSpread` | script.js:249-271 | a freshly opened position is worth minus the spread times its units |
| `Trading.App.constructor` | script.js:5-14 | no data, cursor 0, balance 1 000 000, no positions, not playing |
| `Trading.App.CurrentPrice` | script.js:238-247 | with data: bid = close of the cursor's candle, ask = bid + 0.003, the candle's time; without data: bid and ask 0 |
| `Trading.App.LoadData` | script.js:186-187 | stores the candles and puts the cursor at min(60, len − 1) |
| `Trading.App.Play` | script.js:209-217 | starts playing only when there is data |
| `Trading.App.Pause` | script.js:219-223 | stops playing and changes nothing else |
| `Trading.App.TogglePlay` | script.js:204-207 | pauses when playing, otherwise plays |
| `Trading.App.NextCandle` | script.js:225-234 | advances the cursor by one, or pauses at the last candle |
| `Trading.App.ResetSim` | script.js:123-130 | pauses, puts the cursor at 0, restores the balance and drops every position |
| `Trading.App.OpenPosition` | script.js:249-271 | appends a position at the ask (buy) or bid (sell) with lot·100 000 units; equity drops by exactly spread × units; nothing happens without data |
| `Trading.App.ClosePosition` | script.js:274-291 | an unknown id changes nothing; otherwise the first position with the id is removed, its PnL is realised into the balance, and equity is unchanged |
| `Trading.App.UpdateTotals` | script.js:296-318 | the PnL loop returns the total unrealised PnL and balance + PnL, or nothing without data |
| `Trading.OpenThenClose` | script.js:249-291 | opening then closing a position at the same quote costs exactly the spread on its units and leaves the positions as they were |

## Left out

- Rendering and UI: the chart canvas, DOM updates, `toFixed`/`Math.floor` formatting, the position list, alerts and button state.
- Playback timing: `setInterval`/`clearInterval` and the speed setting. `Play` only sets the flag, so a second `play()` while playing, which would start a second interval, is not distinguished.
- CSV upload and parsing: `FileReader`, date parsing and `parseFloat`. `LoadData` takes the parsed candles and models only the cursor set-up.
- The position id comes from `Date.now()` in the source. Here it is a parameter of `OpenPosition`.
- The lot size is read from an input field in the source. Here it is a parameter.
- Floating point: prices are exact reals, so rounding is not modelled. Where the engine produces NaN, the model either gives no value (UO, the as-written momentum and Stochastic-RSI readings), requires the input away (the lines below), or uses the corrected reading of Findings (the lines for `Oscillators.StochRsi` and `Report.Analyze`).
- `Trading.App.UpdateTotals` returns the totals that `updateUI` writes into the page. With no data, `updateUI` returns early; that is the `NoData` result.
- `Report.Analyze` takes a sequence, so the `!candles` null test of `analyze` has no counterpart.
- `format` is the `IndicatorResult` constructor.
- `Oscillators.Uo`: the engine divides by each window's true-range sum unguarded, and a period longer than the slice reads `undefined`. Both give no value in the model. On well-formed bars a zero range sum comes with a zero pressure sum (`ZeroRangeWindowIsZeroOverZero`), so the engine's result is NaN. On malformed bars (a close outside its bar's range) it could be ±Infinity, which the model does not tell apart from NaN; `checkRsi` would then read BUY or SELL where the model reads NEUTRAL.
- `Oscillators.Stoch`: requires at least one bar; with none the engine reads `smoothKs[-1]`, which is undefined.
- `Oscillators.Bbp`: requires at least one bar, for the same reason (`highs[-1]`).
- `Oscillators.StochRsi`: requires more closes than the RSI period and a period below 200. Otherwise the engine's seed loop reads past the end of its 200-close slice, which is undefined.
- `Oscillators.StochRsi` uses the corrected RSI reading of Findings (100 when the average loss is 0). The engine's reading is NaN at every Wilder state with zero average gain and zero average loss, i.e. wherever every close so far in the 200-close slice equals the first. When such a reading falls in the last `stochLen + k − 1` readings that the final %K uses (a flat history is one case), the engine's Stochastic RSI is NaN, classified NEUTRAL, while the model's is a number in [0, 100] (0 on a flat history).
- `Report.Analyze` inherits this: on those histories the model's Stochastic-RSI row has a value and may be BUY or SELL, where the engine's row shows NaN and NEUTRAL.
- `Report.AnalyzeSpec` inherits it in the same way, through `Report.OscillatorRows`.
- `Oscillators.StochRsiSpec` is that corrected definition: on the histories above it gives a number where the engine's `stochRsi` is NaN.
- `Oscillators.StochRsiInRange` bounds the corrected reading only; on the histories above the engine's value is NaN, which lies in no interval.
- `Report.OscillatorRows` builds its Stochastic-RSI row from the corrected reading, so on the histories above the row has a value where the engine shows NaN and NEUTRAL.
- `Report.OscillatorTable` produces `Report.OscillatorRows` and differs from the engine on the same histories.
- `Report.AnalyzeBounded`: its Stochastic-RSI bound is about the corrected reading; on the histories above the engine's reading is NaN.
- `Oscillators.UoSpec`: a missing value stands for the engine's NaN. On malformed bars (a close outside its bar's range) the engine's result at a zero range sum can instead be ±Infinity, which `UoSpec` does not tell apart from NaN.
- `Oscillators.Macd`: requires at least one close, because the engine seeds its EMA with `data[0]`.
- `Primitives.Sma` and `Primitives.Ema` require a period of at least 1, and so do the oscillators' period arguments. The engine only calls them with positive constant periods.
- `Oscillators.Dx`: the engine's final `val || 0` only turns NaN into 0. Over the reals the guarded division never produces NaN, so it is not modelled.

## Findings

| source | as written | input that shows it | evidently intended | confidence | as-written member | corrected member |
|---|---|---|---|---|---|---|
| indicators.js:237-238 | `mom` returns 0 only when `closes.length < len`, then reads `closes[closes.length - 1 - len]` | `closes.length == len`, e.g. two closes with `len = 2`, reads `closes[-1]`, which is `undefined`, so momentum is NaN | return 0 whenever there is no close `len` bars back (`closes.length <= len`) | not executed | `Oscillators.MomAsWrittenUndefinedAtLength` | `Oscillators.Mom` |
| indicators.js:271 | each Stochastic-RSI reading is `100 - 100 / (1 + avgGain / avgLoss)` with no guard | a flat window (every close in the last 200 equal) gives avgGain = avgLoss = 0, so the reading is 0/0, NaN | 100 when the average loss is 0, as `rsi` does at indicators.js:127 | not executed | `Oscillators.FlatWindowRsiReadingUndefined` | `Oscillators.RsiSeries` |
