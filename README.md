# Basic statistics calculator

This project models `BasicStatsCalculator` from the Cornerstone tools package.
The calculator is fed the voxels of an annotated region one sample at a time
(`statsCallback`). It keeps, per channel, a running maximum, a running
minimum, and a Welford triple: sum, running mean and m2 (the sum of squared
deviations). It also keeps the count of samples, the locations of the maximum
and the minimum, and, when point data is stored, the list of LPS points seen.
`getStatistics` reads all of this out as a named record and resets the
calculator. `statsInit` can switch point collection off; only the reset in
`getStatistics` switches it back on. Widening pushes
two copies (line 44), so the first sample that is an array of two or more
values turns one channel into three. Line
numbers in this file refer to
`packages/tools/src/utilities/math/basic/BasicStatsCalculator.ts`.

The files:

- `wrappers.dfy`: `Option`, which stands for JavaScript's `null`.
- `numbers.dfy`: JavaScript numbers without rounding. `Num` is NaN, -Infinity,
  a finite `real` or Infinity. It comes with `+`, `-`, `*`, `/` by a count,
  `<` and `Math.min`.
- `welford.dfy`: the Welford update of one channel (`WelfordStep`), replayed
  over a sequence of values (`ReplayFrom`). It also holds the proof that, over
  finite values, the update is exact. The result is the total, the mean, and
  the sum of squared deviations from the mean.
- `basic_stats.dfy`: the calculator's state as a value (`Accumulator`) and
  what each operation does to it:
  - `Fresh` is the initial state and `WithPointData` is `statsInit`.
  - `Admit`, `Sweep` and `Absorb` describe `statsCallback`.
  - `Summarize` describes the record `getStatistics` returns.
  - The class `BasicStatsCalculator` holds the same state in fields. It
    updates them in place, as the source does, and each method is proved to
    do exactly what the corresponding function says.
- `basic_stats_properties.dfy`: what the calculator promises. Some properties
  are about one callback, some about a whole session (a sequence of callbacks,
  `Feed`), and some about the record read out at the end.

## Model

| member | source | states |
|---|---|---|
| Numbers.MathMin | packages/tools/src/utilities/math/basic/BasicStatsCalculator.ts:66 | `Math.min` is NaN exactly when an argument is NaN; otherwise it is one of the two arguments and neither is below it |
| Numbers.Add | packages/tools/src/utilities/math/basic/BasicStatsCalculator.ts:60-64 | `+`: exact on finite values; NaN in gives NaN out |
| Numbers.Sub | packages/tools/src/utilities/math/basic/BasicStatsCalculator.ts:60-63 | `-`: exact on finite values; NaN in gives NaN out |
| Numbers.Mul | packages/tools/src/utilities/math/basic/BasicStatsCalculator.ts:64 | `*`: exact on finite values; NaN in gives NaN out |
| Numbers.Less | packages/tools/src/utilities/math/basic/BasicStatsCalculator.ts:67-75 | `<` (and `>` with the arguments swapped) is false when either side is NaN, is strict, puts nothing above Infinity and nothing below -Infinity |
| Numbers.Div | packages/tools/src/utilities/math/basic/BasicStatsCalculator.ts:95-97 | division by a positive count is exact on finite values; 0/0 and NaN/n are NaN |
| Welford.WelfordStep | packages/tools/src/utilities/math/basic/BasicStatsCalculator.ts:60-64 | a NaN (or `undefined`) value turns sum, mean and m2 into NaN; a NaN sum or m2 stays NaN |
| Welford.ReplayFromKeepsNaN | packages/tools/src/utilities/math/basic/BasicStatsCalculator.ts:58-64 | one NaN anywhere among the values fed to a channel leaves its sum and m2 NaN for good |
| Welford.WelfordExact | packages/tools/src/utilities/math/basic/BasicStatsCalculator.ts:60-64 | on finite values, replaying the update from zero gives the total, the mean and the sum of squared deviations from the mean |
| Welford.WelfordStepMeanTimesCount | packages/tools/src/utilities/math/basic/BasicStatsCalculator.ts:60-62 | one update keeps `runMean * count == sum` |
| BasicStats.WellFormed | packages/tools/src/utilities/math/basic/BasicStatsCalculator.ts:8-19 | the invariant of every reachable state: the five channel arrays share one length, 1 or 3, and no maximum is NaN |
| BasicStats.Fresh | packages/tools/src/utilities/math/basic/BasicStatsCalculator.ts:8-22 | the initial state has one channel and count 0; its Welford totals are zero |
| BasicStats.WithPointData | packages/tools/src/utilities/math/basic/BasicStatsCalculator.ts:24-28 | the point list is dropped unless point data is stored; nothing else changes |
| BasicStats.Channels | packages/tools/src/utilities/math/basic/BasicStatsCalculator.ts:54 | a single number becomes a one-element array; an array is kept |
| BasicStats.At | packages/tools/src/utilities/math/basic/BasicStatsCalculator.ts:58 | reading a channel past the end of the sample gives NaN (`undefined`) |
| BasicStats.Widens | packages/tools/src/utilities/math/basic/BasicStatsCalculator.ts:39-43 | the arrays widen exactly when the sample has more than one channel value and the state has one channel |
| BasicStats.Widen | packages/tools/src/utilities/math/basic/BasicStatsCalculator.ts:39-49 | an array of more than one value on a one-channel state gives three channels; the new slots copy channel 0's max, min, sum and m2 and get a zero running mean; the existing channel, the count, the points and the locations are unchanged |
| BasicStats.Collect | packages/tools/src/utilities/math/basic/BasicStatsCalculator.ts:51-53 | the LPS point is appended exactly when the list exists and the point is given; an absent list stays absent |
| BasicStats.Admit | packages/tools/src/utilities/math/basic/BasicStatsCalculator.ts:39-56 | widening, point collection and count + 1; nothing else changes |
| BasicStats.MaxStep | packages/tools/src/utilities/math/basic/BasicStatsCalculator.ts:75-76 | the new maximum is the old one or the value, and it is not below either |
| BasicStats.MinStep | packages/tools/src/utilities/math/basic/BasicStatsCalculator.ts:66-68 | the new minimum is NaN exactly when the old one or the value is; otherwise it is one of them and not above either |
| BasicStats.ChannelAt | packages/tools/src/utilities/math/basic/BasicStatsCalculator.ts:58-81 | the `map` closure on channel `idx` keeps the invariant, the width, the count and the points, and leaves every other channel's max, min and totals unchanged; `SweepAt` states its effect on channel `idx` |
| BasicStats.Sweep | packages/tools/src/utilities/math/basic/BasicStatsCalculator.ts:57-82 | the per-channel map keeps the width, the count and the points |
| BasicStats.Absorb | packages/tools/src/utilities/math/basic/BasicStatsCalculator.ts:34-83 | one callback: the width becomes 3 exactly when the sample widens, otherwise it is unchanged; count + 1; the points are `Collect`ed |
| BasicStats.SweepAt | packages/tools/src/utilities/math/basic/BasicStatsCalculator.ts:57-82 | every mapped channel gets one max, min and Welford step with its own value; unmapped channels are untouched |
| BasicStats.SweepLocations | packages/tools/src/utilities/math/basic/BasicStatsCalculator.ts:66-81 | the locations change only through channel 0's strict tests, and then become the call's |
| BasicStats.AbsorbAt | packages/tools/src/utilities/math/basic/BasicStatsCalculator.ts:56-81 | an existing channel takes one max, min and Welford step at the new count |
| BasicStats.AbsorbWidened | packages/tools/src/utilities/math/basic/BasicStatsCalculator.ts:44-64 | a widened channel starts from channel 0's copies with a zero mean and takes one step |
| BasicStats.AbsorbLocations | packages/tools/src/utilities/math/basic/BasicStatsCalculator.ts:66-81 | after a callback, the max and min locations are the call's exactly when channel 0's strict test holds |
| BasicStats.SingleArrayAsNumber | packages/tools/src/utilities/math/basic/BasicStatsCalculator.ts:166-168 | a single number is reported exactly for a one-element array; the reported channels are the array |
| BasicStats.UnitOf | packages/tools/src/utilities/math/basic/BasicStatsCalculator.ts:100 | a missing or empty unit becomes `null`; any other unit is kept |
| BasicStats.Means | packages/tools/src/utilities/math/basic/BasicStatsCalculator.ts:95 | one mean per channel; for a positive count, mean times count is the sum |
| BasicStats.Variances | packages/tools/src/utilities/math/basic/BasicStatsCalculator.ts:96-98 | one entry per channel; for a positive count, entry times count is m2 |
| BasicStats.Summarize | packages/tools/src/utilities/math/basic/BasicStatsCalculator.ts:94-148 | the record: max and min with their locations, the means, the m2/count entries, the count without unit, the points; `array` (here `ordered`) is `[max, mean, stdDev, stdDev, count]`; each of max, min, mean and stdDev is a bare number exactly when there is one channel, an array otherwise |
| BasicStats.BasicStatsCalculator.constructor | packages/tools/src/utilities/math/basic/BasicStatsCalculator.ts:8-22 | the fields start in the `Fresh` state |
| BasicStats.BasicStatsCalculator.StatsInit | packages/tools/src/utilities/math/basic/BasicStatsCalculator.ts:24-28 | the new state is `WithPointData` of the old one |
| BasicStats.BasicStatsCalculator.StatsCallback | packages/tools/src/utilities/math/basic/BasicStatsCalculator.ts:34-83 | the new state is `Absorb` of the old one and the call; the invariant is kept |
| BasicStats.BasicStatsCalculator.MapChannels | packages/tools/src/utilities/math/basic/BasicStatsCalculator.ts:57-82 | the loop over the channels leaves the state `Sweep` says |
| BasicStats.BasicStatsCalculator.ChannelStep | packages/tools/src/utilities/math/basic/BasicStatsCalculator.ts:58-81 | the closure body leaves the state `ChannelAt` says |
| BasicStats.BasicStatsCalculator.GetStatistics | packages/tools/src/utilities/math/basic/BasicStatsCalculator.ts:94-163 | the result is `Summarize` of the old state; the fields are reset to `Fresh`, including a new empty point list |
| BasicStatsProperties.MinTestNeverFires | packages/tools/src/utilities/math/basic/BasicStatsCalculator.ts:66-68 | the strict test after `Math.min` never holds, so the new minimum is exactly `Math.min` |
| BasicStatsProperties.CallbackExtrema | packages/tools/src/utilities/math/basic/BasicStatsCalculator.ts:66-81 | after a callback, the max is the larger of the old max and the value (a NaN value leaves it alone); the min is `Math.min` of the old min and the value |
| BasicStatsProperties.CallbackMaxLocation | packages/tools/src/utilities/math/basic/BasicStatsCalculator.ts:75-81 | the max locations become the call's exactly when channel 0's value is strictly above the old max (ties keep the old ones), which is exactly when channel 0's max changes |
| BasicStatsProperties.CallbackKeepsMinLocation | packages/tools/src/utilities/math/basic/BasicStatsCalculator.ts:66-73 | a callback never changes the min locations |
| BasicStatsProperties.CallbackMeanTimesCount | packages/tools/src/utilities/math/basic/BasicStatsCalculator.ts:56-62 | a callback with a finite value keeps `runMean * count == sum` on the channel |
| BasicStatsProperties.WideningByPair | packages/tools/src/utilities/math/basic/BasicStatsCalculator.ts:39-64 | a two-value array widens to three channels; the third channel reads `undefined`, so its totals and min become NaN while its max stays channel 0's |
| BasicStatsProperties.Feed | packages/tools/src/utilities/math/basic/BasicStatsCalculator.ts:34-83 | a session of callbacks keeps the invariant, never narrows, and adds one to the count per call |
| BasicStatsProperties.ChannelValues | packages/tools/src/utilities/math/basic/BasicStatsCalculator.ts:54-58 | the values a session feeds to channel `i`, one per call |
| BasicStatsProperties.LPSPoints | packages/tools/src/utilities/math/basic/BasicStatsCalculator.ts:51-53 | the LPS points of a session: at most one per call, exactly the points the calls carry (each present point is in it and nothing else), and one per call when every call has one |
| BasicStatsProperties.SessionMoments | packages/tools/src/utilities/math/basic/BasicStatsCalculator.ts:56-64 | after a session, each existing channel's totals are the Welford replay of the values fed to it |
| BasicStatsProperties.SessionWidth | packages/tools/src/utilities/math/basic/BasicStatsCalculator.ts:39-49 | the width after a session is 3 exactly when it was 3 or some sample had more than one value; otherwise it is 1 |
| BasicStatsProperties.SessionPoints | packages/tools/src/utilities/math/basic/BasicStatsCalculator.ts:51-53 | a session appends its LPS points in order; an absent list stays absent |
| BasicStatsProperties.SessionKeepsMinLocation | packages/tools/src/utilities/math/basic/BasicStatsCalculator.ts:66-73 | no session ever records a min location |
| BasicStatsProperties.SessionMax | packages/tools/src/utilities/math/basic/BasicStatsCalculator.ts:75-76 | the max after a session is at least the starting max and every non-NaN value fed, and equal to one of them |
| BasicStatsProperties.SessionMinNaN | packages/tools/src/utilities/math/basic/BasicStatsCalculator.ts:66 | the min after a session is NaN exactly when it started NaN or the session fed a NaN |
| BasicStatsProperties.SessionMin | packages/tools/src/utilities/math/basic/BasicStatsCalculator.ts:66 | a non-NaN min after a session is at most the starting min and every value fed, and equal to one of them |
| BasicStatsProperties.SessionMaxLocation | packages/tools/src/utilities/math/basic/BasicStatsCalculator.ts:75-81 | after a session, the max locations are either the starting ones (the max never rose) or those of the first call that reached the final max strictly above everything before it |
| BasicStatsProperties.SessionNaNChannel | packages/tools/src/utilities/math/basic/BasicStatsCalculator.ts:58-64 | a channel that is fed a NaN anywhere in a session ends it with NaN sum and m2 |
| BasicStatsProperties.SessionExact | packages/tools/src/utilities/math/basic/BasicStatsCalculator.ts:56-64 | a fresh session (its point list present or absent) over finite channel-0 values ends with their total, their mean and their sum of squared deviations |
| BasicStatsProperties.ReadOut | packages/tools/src/utilities/math/basic/BasicStatsCalculator.ts:95-98 | reported mean entry `i` is `sum[i] / count`; the stdDev entry is `m2[i] / count` |
| BasicStatsProperties.SessionStatistics | packages/tools/src/utilities/math/basic/BasicStatsCalculator.ts:94-134 | after a fresh, non-empty session of finite values, its point list present or absent (so also after `statsInit` switched collection off), the reported channel-0 mean is their mean, the stdDev entry is their population variance and the count is their number; with only single-value samples both are reported as single numbers |
| BasicStatsProperties.EmptySessionStatistics | packages/tools/src/utilities/math/basic/BasicStatsCalculator.ts:94-139 | reading out an empty session gives max -Infinity, min Infinity, NaN mean and stdDev, count 0, no max or min location (IJK or LPS) and an empty point list |
| BasicStatsProperties.NextSession | packages/tools/src/utilities/math/basic/BasicStatsCalculator.ts:150-160 | after the reset, the next session collects all of its LPS points into a new list, counts from 0 and records no min location |
| BasicStatsProperties.SessionWithoutPoints | packages/tools/src/utilities/math/basic/BasicStatsCalculator.ts:24-28 | once `statsInit` has switched collection off, no session collects points |

## Left out

- BasicStats.Summarize: the standard-deviation entry holds the variance `m2 / count`, not its square root. `Math.sqrt` on a `real` has no exact counterpart here, so the stdDev value is stated one step earlier.
- Floating point: numbers are exact reals. IEEE rounding and the sign of zero (`-0`) are not modelled.
- `PointsManager`: the point list is a sequence of points. Its preallocated capacity (1024) and growth are not modelled.
- The `name` and `label` strings of each record, and the `Calculator` base class, are not modelled.
- Static sharing: the source keeps its state in static fields shared by all callers. Here one object stands for them, and concurrent use is not modelled.
- BasicStats.WithPointData: the option's flag is a `bool`, so an absent flag is not a separate case. `statsInit` without the flag switches point collection off (`!undefined` is true, line 25), which is what `false` does here.
- A sample is a single number or an array of numbers. Other JavaScript values (strings, `undefined` as the whole sample) are not modelled. An array shorter than the channel count reads `undefined`, which behaves like NaN.
- Locations are values. The source stores the caller's `pointIJK` and `pointLPS` objects by reference (lines 78-79, and the unreachable 70-71) and returns those same objects in the record (lines 108-109, 116-117). A caller that later changes such an object would see the recorded location change in the source, but not in this model.
- The strict minimum test after `Math.min` (lines 67-73) can never hold. `ChannelStep` writes its assignments as conditional values instead of a dead branch; the behaviour is the same, and `MinTestNeverFires` proves the test never holds.
