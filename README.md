# Technical indicators: the signal engine

This project models the indicator module of the capstone trading code
(`WQUcapstoneCode/technical/technical.py`). Each indicator takes a closing
price column and builds a table of derived columns. The signalling indicators
then do the same three things:

- they compute the rows where an up-crossing (buy) and a down-crossing (sell)
  predicate fire;
- they write `+1` on the up rows and `-1` on the down rows of a `side` column;
- they fill that column forward.

The six signalling indicators are Williams %R, the EMA crossover, Bollinger
bands, the stochastic oscillator, Ichimoku and RSI. Ichimoku and RSI then set
chosen rows of `side` to 0. The commodity channel index builds its table only.

## Representation

- A column is a `Series = seq<Option<real>>`, indexed by row position.
  `None` is the NaN of a floating-point column.
- A boolean column is a `Mask = seq<bool>`.
- Column arithmetic follows the pandas rules the code relies on:
  - a missing operand gives a missing result;
  - a comparison with a missing value is false;
  - `shift(k)` moves values down and fills the first `k` rows with missing values.
- A division by zero gives a missing value. For the quotients the model
  computes this matches the source's values: in %R (line 41), %K (line 130)
  and CCI (line 119) a zero divisor comes with a zero numerator, so the
  floating-point result is the 0/0 NaN, never an infinity
  (`Columns.ZeroRangeZeroNumerator` and `Columns.CciZeroDeviation` prove
  this); `_sen` and span A (lines 158 and 177) divide by the constant 2. The
  RSI's division by the average loss (line 207) can give an infinity on a run
  of gains; that quotient is not computed here, because the RSI is an input.
- A rolling window of length `w` ending at row `i` is defined only when it
  holds `w` defined rows. This is pandas' default minimum number of
  observations.

## Modules

| file | module | models |
|---|---|---|
| series.dfy | `Series` | columns, element-wise operators, comparisons, shift, rolling min/max/mean |
| columns.dfy | `Columns` | %R, %K/%D, the Ichimoku lines and spans, CCI, the RSI gain/loss split, Bollinger bands |
| frames.dfy | `Frames` | the table each indicator builds, one `Frame` constructor per signalling indicator |
| crossings.dfy | `Crossings` | the up/down crossing predicates, the selected event rows |
| signal.dfy | `Signal` | the side column: event marks, forward fill, the 0 override, and the in-place array passes |
| technical.dfy | `Technical` | the indicator objects: constructors, the shared `_switch` pass, `__call__` |

## Imperative and pure parts

The indicator objects are a `class Indicator`. Its fields are `data`,
`switchUp`, `switchDown` and a `side` array. There is one named constructor
per indicator. `Switch` is the shared `_switch` pass:

- `Signal.PlaceEvents` writes `+1` and `-1` into a fresh array;
- `Signal.FillForward` fills it forward in place;
- for Ichimoku and RSI, `Signal.Neutralize` then writes the 0 override in place.

Each of these methods is proved against a pure function: `Marks`, `FFill` and
`Override`. The lemmas about those functions state the promised behaviour.

## Operators as the code writes them

- The %R up-crossing is strict: the previous `wr > 20` and the current
  `wr < 20` (lines 52-53).
- The stochastic up-crossing needs `%K < 20`, the previous %D below the
  previous %K, and the current %D above the current %K (lines 143-145); the
  down-crossing mirrors it with `%K > 80` (lines 136-138).
- The Ichimoku neutral mask is `(a & b) | (~a & ~b)` (line 171). Because a
  comparison with NaN is false, it is also 0 on rows where the price is
  missing or both spans are.
- A flat window (rolling high == low) makes %R and %K missing (lines 41 and
  130), and a missing value blocks every crossing on that row and the next.
  For example, with window 3, a price constant on consecutive blocks of 3
  rows, such as `[10, 10, 10, 12, 12, 12, 8, 8, 8, ...]`, gives %R =
  NaN, NaN, NaN, 0, 0, NaN, 100, 100, NaN, ... and no crossing fires.

## Model

| member | source | states |
|---|---|---|
| Series.Const | WQUcapstoneCode/technical/technical.py:41 | a scalar broadcast to every row, as `100 *` at line 41 and the thresholds `< 20`, `> 80`, `> 30`, `< 70` of the crossing rules |
| Series.Add | WQUcapstoneCode/technical/technical.py:91 | element-wise sum, as at lines 91, 158 and 177; a missing operand gives a missing result |
| Series.Sub | WQUcapstoneCode/technical/technical.py:92 | element-wise difference, as at lines 41, 92 and 116-119; a missing operand gives a missing result |
| Series.Mul | WQUcapstoneCode/technical/technical.py:91 | element-wise product, as at lines 41, 91 and 119; a missing operand gives a missing result |
| Series.Abs | WQUcapstoneCode/technical/technical.py:117 | element-wise `np.abs`; a missing value stays missing |
| Series.And | WQUcapstoneCode/technical/technical.py:48 | element-wise `&` of two boolean masks, as at lines 48, 139, 171 and 211; a comparison with NaN has already given false |
| Series.Or | WQUcapstoneCode/technical/technical.py:171 | element-wise logical or (the pandas or-operator) of two boolean masks, as at line 171 |
| Series.Not | WQUcapstoneCode/technical/technical.py:171 | element-wise `~` of a boolean mask, as at line 171; on a NaN row both comparisons are false, so their negations are true |
| Series.Div | WQUcapstoneCode/technical/technical.py:41 | element-wise quotient, as in %R here and at lines 119, 130, 158 and 177; a missing operand or a zero divisor gives a missing result (the 0/0 cases, see `Columns.ZeroRangeZeroNumerator` and `Columns.CciZeroDeviation`) |
| Series.Lt | WQUcapstoneCode/technical/technical.py:46 | element-wise `<`; false wherever either side is missing (row-by-row form in `Crossings.MasksFollowRules`) |
| Series.Gt | WQUcapstoneCode/technical/technical.py:47 | element-wise `>`, the `<` with the sides swapped; false wherever either side is missing |
| Series.Shift | WQUcapstoneCode/technical/technical.py:46 | `shift(k)`: each value moves `k` rows later and the first `k` rows are missing (placement in `Columns.IchimokuPlacement`) |
| Series.Diff | WQUcapstoneCode/technical/technical.py:197 | `close.diff()`, the value minus the previous row's; properties in `Columns.RsiSplit` |
| Series.RollingMin | WQUcapstoneCode/technical/technical.py:39 | rolling minimum over full windows; definedness in `Series.RollingDefined`, bounds and attainment in `Series.RollingBracket` |
| Series.RollingMax | WQUcapstoneCode/technical/technical.py:40 | rolling maximum over full windows; definedness in `Series.RollingDefined`, bounds and attainment in `Series.RollingBracket` |
| Series.RollingMean | WQUcapstoneCode/technical/technical.py:89 | rolling mean over full windows; definedness in `Series.RollingDefined`, bounds in `Series.RollingMeanBounds` and `Series.RollingBracket` |
| Columns.WilliamsR | WQUcapstoneCode/technical/technical.py:38-41 | `100 * (high - close) / (high - low)` over the rolling high and low; range and definedness in `Columns.WilliamsRRange` |
| Columns.PercentK | WQUcapstoneCode/technical/technical.py:128-130 | `100 * (close - low) / (high - low)` over the rolling high and low; range and definedness in `Columns.StochasticRange` |
| Columns.PercentD | WQUcapstoneCode/technical/technical.py:131 | the rolling mean of %K over `stochWindow`; range and warm-up in `Columns.StochasticRange` |
| Columns.Sen | WQUcapstoneCode/technical/technical.py:174-177 | midpoint of the rolling high and low; definedness and bracketing in `Columns.SenBetween` |
| Columns.Midline | WQUcapstoneCode/technical/technical.py:158 | `(tenka_sen + kijun_sen) / 2` before the shift; value in `Columns.IchimokuPlacement` |
| Columns.SenkouSpanA | WQUcapstoneCode/technical/technical.py:158 | the midline moved `kijunWindow` rows later; placement and warm-up in `Columns.IchimokuPlacement` and `Columns.IchimokuWarmup` |
| Columns.SenkouSpanB | WQUcapstoneCode/technical/technical.py:161 | the senkou-window midpoint moved `kijunWindow` rows later; placement and warm-up in `Columns.IchimokuPlacement` and `Columns.IchimokuWarmup` |
| Columns.ChikouSpan | WQUcapstoneCode/technical/technical.py:164 | the price moved 26 rows later whatever the windows; stated in `Columns.IchimokuPlacement` |
| Columns.MovingAverage | WQUcapstoneCode/technical/technical.py:116 | the rolling mean of the price; warm-up in `Columns.CciWarmup` |
| Columns.MeanDeviation | WQUcapstoneCode/technical/technical.py:117 | rolling mean of `abs(close - MA)`, each term against its own row's average; warm-up in `Columns.CciWarmup`, zero case in `Columns.CciZeroDeviation` |
| Columns.Cci | WQUcapstoneCode/technical/technical.py:119 | `(close - MA) / (0.015 * MeanDeviation)`; warm-up in `Columns.CciWarmup`, zero-deviation NaN in `Columns.CciZeroDeviation` |
| Columns.Gains | WQUcapstoneCode/technical/technical.py:198-199 | the change with negative values set to 0, i.e. its positive part; stated in `Columns.RsiSplit` |
| Columns.Losses | WQUcapstoneCode/technical/technical.py:198-200 | the change with positive values set to 0, i.e. its negative part; stated in `Columns.RsiSplit` |
| Columns.UpperBand | WQUcapstoneCode/technical/technical.py:91 | `avg + sd * numsd`; symmetry and order in `Columns.BandsAroundAverage` |
| Columns.LowerBand | WQUcapstoneCode/technical/technical.py:92 | `avg - sd * numsd`; symmetry and order in `Columns.BandsAroundAverage` |
| Frames.WilliamsRTable | WQUcapstoneCode/technical/technical.py:38-41 | the price and %R table, aligned on the price rows |
| Frames.EmaTable | WQUcapstoneCode/technical/technical.py:61-63 | the price, fast and slow table, aligned on the price rows |
| Frames.StochasticTable | WQUcapstoneCode/technical/technical.py:127-131 | the price, %K and %D table, aligned on the price rows |
| Frames.IchimokuTable | WQUcapstoneCode/technical/technical.py:152-164 | the price, tenkan, kijun, both spans and chikou table, aligned on the price rows |
| Frames.RsiTable | WQUcapstoneCode/technical/technical.py:195-208 | the price and RSI table, aligned on the price rows |
| Frames.CciTable | WQUcapstoneCode/technical/technical.py:118-120 | the price and CCI table, with the CCI on the price rows |
| Crossings.UpMask | WQUcapstoneCode/technical/technical.py:44-223 | the up-crossing rows of each indicator, the six `_get_up_cross` rules as written (lines 50-54, 66-70, 106-110, 141-146, 179-183, 219-223); row form in `Crossings.MasksFollowRules`, exclusivity in `Crossings.CrossingsExclusive` |
| Crossings.DownMask | WQUcapstoneCode/technical/technical.py:44-223 | the down-crossing rows of each indicator, the six `_get_down_cross` rules as written (lines 44-48, 72-76, 100-104, 134-139, 185-189, 213-217); row form in `Crossings.MasksFollowRules`, exclusivity in `Crossings.CrossingsExclusive` |
| Crossings.Recorded | WQUcapstoneCode/technical/technical.py:70 | the value an event records: `fast` for the EMA crossover, the price otherwise (lines 48, 70); used in `Crossings.EventsAreMaskRows` |
| Crossings.UpCross | WQUcapstoneCode/technical/technical.py:17 | the up events: the up-mask rows with their recorded values; stated in `Crossings.EventsAreMaskRows` |
| Crossings.DownCross | WQUcapstoneCode/technical/technical.py:18 | the down events: the down-mask rows with their recorded values; stated in `Crossings.EventsAreMaskRows` |
| Signal.Marks | WQUcapstoneCode/technical/technical.py:19-21 | +1 on up-event rows, -1 on down-event rows, missing elsewhere; method form `Signal.PlaceEvents`, on masks `Technical.MarksOfCrossings` |
| Signal.FFill | WQUcapstoneCode/technical/technical.py:22 | each row takes the latest defined value at or before it; properties in `Signal.LatestMissing`, `Signal.LatestIsLastDefined`, `Signal.LatestHasSource`; method form `Signal.FillForward` |
| Signal.Override | WQUcapstoneCode/technical/technical.py:171 | mask rows set to 0, other rows kept; method form `Signal.Neutralize` |
| Technical.Filled | WQUcapstoneCode/technical/technical.py:16-22 | the side column after `_switch`; its meaning in `Technical.SideFollowsLatestEvent` |
| Technical.CloudMask | WQUcapstoneCode/technical/technical.py:168-171 | the Ichimoku rows where `a` and `b` are both true or both false; stated row by row in `Technical.IchimokuOverride` |
| Technical.NeutralBand | WQUcapstoneCode/technical/technical.py:211 | the RSI rows `30 < RSI < 70`; stated row by row in `Technical.RsiOverride` |
| Technical.FinalSide | WQUcapstoneCode/technical/technical.py:16-22 | the side each indicator ends with: the filled column, with the override for Ichimoku (line 171) and RSI (line 211); values in `Technical.SideValues` |
| Series.RollingDefined | WQUcapstoneCode/technical/technical.py:39-40 | a rolling min, max or mean is defined exactly when its window of `w` rows is full; it is missing for the first `w - 1` rows |
| Series.RollingBracket | WQUcapstoneCode/technical/technical.py:39-40 | on a full window, every row lies between the rolling min and max, each bound is attained by a row of the window, and the mean lies between them |
| Series.RollingMeanBounds | WQUcapstoneCode/technical/technical.py:131 | a rolling mean keeps any bounds that every value of its input obeys |
| Series.RollingOfConstant | WQUcapstoneCode/technical/technical.py:89 | on a window of one repeated value, the rolling mean, min and max are that value |
| Series.Collect | WQUcapstoneCode/technical/technical.py:39-40 | a run of values is collected exactly when none is missing, and keeps every value in order |
| Series.WindowValues | WQUcapstoneCode/technical/technical.py:39-40 | the window values exist exactly on a full window and are the `w` rows ending at `i` |
| Series.Min | WQUcapstoneCode/technical/technical.py:39 | the minimum is below every value and is one of them |
| Series.Max | WQUcapstoneCode/technical/technical.py:40 | the maximum is above every value and is one of them |
| Series.MeanBounds | WQUcapstoneCode/technical/technical.py:89 | a mean lies within any bounds all its terms obey |
| Series.ZeroSumOfNonNegative | WQUcapstoneCode/technical/technical.py:117 | a sum of non-negative terms is zero only when every term is zero |
| Columns.WilliamsRRange | WQUcapstoneCode/technical/technical.py:37-41 | %R is defined exactly on full windows with a non-zero range; it then lies in [0, 100], and it is missing during the warm-up |
| Columns.StochasticRange | WQUcapstoneCode/technical/technical.py:126-131 | %K is defined exactly on full windows with a non-zero range; %K and %D lie in [0, 100]; %D is missing for the first `w + stochWindow - 2` rows |
| Columns.ZeroRangeZeroNumerator | WQUcapstoneCode/technical/technical.py:41 | where the range is zero, both numerators are zero too, so the missing value is 0/0 and not an infinity |
| Columns.SenBetween | WQUcapstoneCode/technical/technical.py:174-177 | the midpoint line is defined on full windows and lies between the rolling low and high |
| Columns.IchimokuPlacement | WQUcapstoneCode/technical/technical.py:154-164 | both senkou spans are the midpoint lines from `kijunWindow` rows earlier, and the chikou span is the price 26 rows earlier whatever the windows |
| Columns.IchimokuWarmup | WQUcapstoneCode/technical/technical.py:158-161 | span A needs `kijunWindow` rows of lead plus full tenkan and kijun windows; span B needs the lead plus a full senkou window |
| Columns.CciWarmup | WQUcapstoneCode/technical/technical.py:115-120 | the mean deviation and the index are missing for the first `2w - 2` rows |
| Columns.CciZeroDeviation | WQUcapstoneCode/technical/technical.py:116-119 | a zero mean deviation forces a zero current deviation, so the index is 0/0 and missing |
| Columns.RsiSplit | WQUcapstoneCode/technical/technical.py:197-200 | the up part is the positive part of the change and the down part its negative part: up is non-negative, down non-positive, at most one of them is non-zero, both are defined where the change is, they add up to the change, and row 0 is missing |
| Columns.BandsAroundAverage | WQUcapstoneCode/technical/technical.py:89-92 | the bands sit symmetrically `sd * numsd` around the average, are defined together, and are ordered by the sign of `numsd` for a non-negative deviation |
| Columns.BandsOfConstantPrice | WQUcapstoneCode/technical/technical.py:89-92 | a constant window with zero deviation puts the average and both bands on the price |
| Frames.BollingerTable | WQUcapstoneCode/technical/technical.py:87-98 | the table's columns all have one row per price row, and the bands keep one order on every row |
| Crossings.Select | WQUcapstoneCode/technical/technical.py:48 | the selected events are exactly the rows where the mask holds, in increasing row order, each carrying the recorded value of its row |
| Crossings.MasksFollowRules | WQUcapstoneCode/technical/technical.py:44-223 | each indicator's column expressions compute its row-by-row crossing rule, with the operators as written |
| Crossings.CrossingNeedsTwoDefinedRows | WQUcapstoneCode/technical/technical.py:44-223 | no crossing fires on row 0, nor where any compared column is missing on the row or the row before |
| Crossings.CrossingsExclusive | WQUcapstoneCode/technical/technical.py:44-223 | no row is both an up- and a down-crossing, for every indicator; for Bollinger this needs the bands to keep one order |
| Crossings.EventsAreMaskRows | WQUcapstoneCode/technical/technical.py:17-18 | the recorded up and down events are exactly the rows of their masks, each with the recorded value (fast line for EMA, else price) |
| Crossings.EventsDisjoint | WQUcapstoneCode/technical/technical.py:19-21 | the two event series never share a row, so concatenating them gives distinct row labels |
| Signal.LatestMissing | WQUcapstoneCode/technical/technical.py:22 | a forward-filled row is missing exactly when no row at or before it is defined |
| Signal.LatestIsLastDefined | WQUcapstoneCode/technical/technical.py:22 | a forward-filled row carries the value of the last defined row at or before it |
| Signal.LatestHasSource | WQUcapstoneCode/technical/technical.py:22 | a defined forward-filled value comes from a defined row at or before it, with nothing defined in between |
| Signal.FillChangesOnlyAtMarks | WQUcapstoneCode/technical/technical.py:22 | the filled column changes from one row to the next only on a defined row, and takes that row's value |
| Signal.SignFillMissing | WQUcapstoneCode/technical/technical.py:19-22 | the filled sign column is missing exactly before the first row of either mask |
| Signal.SignFillLatest | WQUcapstoneCode/technical/technical.py:19-22 | from an event row until the next one, the filled sign column carries that event's sign |
| Signal.SignFillValues | WQUcapstoneCode/technical/technical.py:19-22 | the filled sign column holds only -1, +1 or a missing value |
| Signal.PlaceEvents | WQUcapstoneCode/technical/technical.py:19-21 | a fresh column holding +1 on every up row, -1 on every down row, and missing elsewhere |
| Signal.FillForward | WQUcapstoneCode/technical/technical.py:22 | the in-place left-to-right fill leaves exactly the forward fill of the old contents |
| Signal.Neutralize | WQUcapstoneCode/technical/technical.py:171 | the in-place pass sets the mask rows to 0 and keeps every other row |
| Technical.MarksOfCrossings | WQUcapstoneCode/technical/technical.py:17-21 | the unfilled side column is +1 on up-crossing rows, -1 on down-crossing rows, and missing elsewhere |
| Technical.SideFollowsLatestEvent | WQUcapstoneCode/technical/technical.py:16-22 | the side is missing exactly before the first event; otherwise it is the sign of the latest event at or before the row, and it changes only on event rows |
| Technical.SideValues | WQUcapstoneCode/technical/technical.py:16-22 | the side holds only -1, +1, 0 or a missing value; 0 only for Ichimoku and RSI |
| Technical.IchimokuOverride | WQUcapstoneCode/technical/technical.py:168-171 | the Ichimoku side is 0 exactly where "span A below the price" and "price below span B" agree (always when the price or both spans are missing); other rows keep the filled value |
| Technical.IchimokuWarmupNeutral | WQUcapstoneCode/technical/technical.py:158-171 | on rows too early for either span, the Ichimoku side is 0, not missing |
| Technical.RsiOverride | WQUcapstoneCode/technical/technical.py:211 | the RSI side is 0 exactly where the RSI is defined and strictly between 30 and 70; other rows, missing RSI included, keep the filled value |
| Technical.Indicator.Switch | WQUcapstoneCode/technical/technical.py:16-22 | records both event series and leaves a fresh side column equal to the forward-filled marks, with the table unchanged |
| Technical.Indicator.WilliamsR | WQUcapstoneCode/technical/technical.py:37-54 | builds the %R table and leaves the object valid: its events and its side are the ones the table defines |
| Technical.Indicator.Ema | WQUcapstoneCode/technical/technical.py:60-76 | builds the crossover table from the two smoothed lines and leaves the object valid |
| Technical.Indicator.BollingerBands | WQUcapstoneCode/technical/technical.py:83-110 | builds the band table from a non-negative deviation and leaves the object valid |
| Technical.Indicator.Stochastic | WQUcapstoneCode/technical/technical.py:126-146 | builds the %K/%D table and leaves the object valid |
| Technical.Indicator.Ichimoku | WQUcapstoneCode/technical/technical.py:151-189 | builds the Ichimoku table, switches, neutralises the cloud rows, and leaves the object valid |
| Technical.Indicator.Rsi | WQUcapstoneCode/technical/technical.py:194-223 | builds the RSI table, switches, neutralises the 30-70 band, and leaves the object valid |
| Technical.Indicator.Call | WQUcapstoneCode/technical/technical.py:13-14 | calling a valid indicator returns its table and its side column unchanged, and that side column is the one the table defines |
| Technical.CommodityChannelIndex.constructor | WQUcapstoneCode/technical/technical.py:115-120 | builds the price and CCI table |
| Technical.CommodityChannelIndex.Call | WQUcapstoneCode/technical/technical.py:121-122 | calling the index returns its table unchanged |

## Left out

- Exponentially weighted means (`ewm`) at lines 62-63 and 203-204 are floating-point smoothing. The EMA lines `fast` and `slow` are constructor inputs.
- The rolling population standard deviation at line 90 is an input column `sd`. The builders assume only that it is non-negative. `Columns.BandsOfConstantPrice` also takes `sd[i] == Some(0.0)` as a hypothesis, standing in for the population deviation of a constant window.
- The RSI formula at lines 207-208 (a ratio of two smoothed means) is floating point. The `rsi` column is an input. The gain/loss split that feeds it is modelled (`Columns.Gains`, `Columns.Losses`).
- Floating-point rounding, infinities and signed zeros are not modelled. Values are exact reals, and every division by zero is the missing value.
- Row labels are row positions. Alignment of pandas indices other than positions is not modelled.
- The `ValueError` that `pd.concat` followed by assignment raises on duplicate row labels is not modelled as an error path. Instead, `Technical.Indicator.Switch` requires the bands to keep one order, and `Crossings.EventsDisjoint` proves the labels are distinct.
- The base-class `ValueError`s at lines 24-30 are not modelled: every modelled indicator supplies both crossing predicates.
- A window of length 0 is not modelled: `Window` is at least 1.
- The plotting helper `plot_indicator` (lines 226-235) draws output and is left out.
- `rolling_autocorr` (lines 238-241) is not part of the signal engine and is left out.
- The RSI constructor's `window` parameter (line 194) only feeds the left-out smoothing, so it is not a parameter of `Technical.Indicator.Rsi`.
