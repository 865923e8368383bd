# Solar yield plots, modelled in Dafny

The Solar_yield scripts draw interactive plots of sun geometry and solar panel
yield. Each script has two parts. A Python/numpy build computes the initial
columns of a plot. A JavaScript slider callback then recomputes those columns
in place whenever a slider moves. This project models both parts of every
script and proves how they relate.

- **Shade geometry.**
  - `shade_house_tree.dfy` models the sunlit polygon behind a tree and a
    wall, and the slider updates of the tree, wall and ground shapes.
  - `shade_panel_spacing.dfy` models the panel, ground and sunny-area
    shapes of a tilted panel.
- **Sun geometry.** `solar.dfy` holds what every script shares:
  - degree/radian conversion;
  - the hour angle;
  - the declination approximation;
  - the coefficients `A`, `B` of the elevation `asin(A + B cos H)`.

  `sun_elevation_hours.dfy` models the elevation plot.
- **Yield curves.**
  - `yield_hours_fixed.dfy` is the hourly yield of a fixed panel.
  - `yield_rotative_hours.dfy` is the hourly yield of a tracking panel.
  - `yield_day.dfy` is the daily mean of a tracking panel, per tilt.
  - `yield_day_tot_fixed.dfy` is the daily total of a fixed panel, per tilt.
  - `yield_year.dfy` is the yearly total of a tracking panel, per tilt.
- **Shared pieces.**
  - `fixed_panel.dfy` holds the fixed-panel yield formula.
  - `day_sums.dfy` holds the masked sums over a day's samples.
  - `tally.dfy` holds the daylight masks, numpy's `argmax`, `linspace` and
    `arange`, the callbacks' running-maximum scan and the two-point maximum
    marker.
  - `num_tally.dfy` holds the same bookkeeping for curves whose samples may
    be NaN.

Modelling choices:

- **Trigonometry.** `sin`, `cos`, `tan`, `asin`, `sqrt` and the value of pi
  are fields of a record (`Solar.Trig`) that every operation takes as a
  parameter. Only range and sign facts are assumed about them (`Trig.Valid`).
- **Night sentinels.** numpy's NaN and JavaScript's `1/0` are constructors of
  `Solar.Num`, next to `Value(v)`.
- **In-place updates.** The columns that a callback updates element by
  element are `array` fields of a class, one class per plot's data source.
  Columns that a callback replaces as a whole are `seq` fields.
- **Callback loops.** Every loop of a callback is a `method` with invariants.
  It is proved against a recursive specification function. The lemmas then
  relate that function to the Python build.

Facts about the scripts that the model makes explicit:

- **Shade cases.** `shade_house_tree.py` draws three cases
  (scripts/shade_house_tree.py:87-110): the wall in shade when
  `y_light >= wall_h`, half lit when also `x1 > wall_d`, and fully lit
  otherwise. The comment at scripts/shade_house_tree.py:50 names 50 degrees
  for full light, 30 for half light and 10 for shade (`DefaultSceneCases`).
- **Daylight test.** The Python builds keep the samples with elevation
  `>= 0` (scripts/yield_day.py:39, scripts/yield_year.py:41,
  scripts/yield_day_tot_fixed.py:42). Their callbacks keep only `> 0`
  (scripts/yield_day.py:87, scripts/yield_year.py:90,
  scripts/yield_day_tot_fixed.py:104). `yield_hours_fixed.py` computes a
  value at elevation exactly 0 (scripts/yield_hours_fixed.py:54), where its
  callback writes `1/0` (scripts/yield_hours_fixed.py:93).
- **Yield range.**
  - The yearly curve is scaled by `2 * 100` (scripts/yield_year.py:46), so
    it lies in [0, 200].
  - The daily-mean callback adds the unclipped sines
    (scripts/yield_day.py:86-88), so its value can be negative.
  - On a polar night the daily-mean callback shows 0
    (scripts/yield_day.py:80-92), where Python's mean of an empty array is
    NaN (scripts/yield_day.py:43).
- **Daily-mean divisor.** The daily-mean callback divides by one more than
  the number of daytime samples, because its counter starts at 1
  (scripts/yield_day.py:81).
- **Daily-total scale.** The fixed-panel daily total adds the unscaled
  per-sample yield (scripts/yield_day_tot_fixed.py:59 and 116) and applies
  the factor 100 once, in `100 * sum / n` (scripts/yield_day_tot_fixed.py:60
  and 121). The hourly fixed-panel plot applies 100 to every sample
  (scripts/yield_hours_fixed.py:58 and 105). `FixedPanel.Ratio` is the unscaled
  formula and `FixedPanel.Yield` the percent one.

## Model

| member | source | states |
|---|---|---|
| Solar.D2R | scripts/sun_elevation_hours.py:14-15 | definition: `d2r(x) = x / 180 * pi`; `D2RR2DInverse` and `D2RForms` state its properties |
| Solar.D2RForms | scripts/sun_elevation_hours.py:50 | the callbacks' spelling `v * PI / 180` equals `d2r(v)` |
| Solar.R2D | scripts/sun_elevation_hours.py:17-18 | definition: `r2d(x) = x / pi * 180`; `D2RR2DInverse` and `R2DSign` state its properties |
| Solar.HourAngleDeg | scripts/sun_elevation_hours.py:30 | definition: the hour angle `15 (h - 12)` in degrees; `HourAngleRange` states its properties |
| Solar.Radians | scripts/yield_day.py:46 | column definition, stated entry by entry: the `xx` column is `d2r` of every tilt, with the same length |
| Solar.D2RR2DInverse | scripts/sun_elevation_hours.py:14-18 | `d2r` and `r2d` undo each other in both orders for any nonzero pi |
| Solar.R2DSign | scripts/sun_elevation_hours.py:17-18 | `r2d` keeps an angle's sign: negative iff negative, positive iff positive |
| Solar.HourAngleRange | scripts/sun_elevation_hours.py:29-30 | the hour angle `15 (h - 12)` is 0 at noon, maps [0, 24] onto [-180, 180] with both ends hit, and is strictly increasing |
| Solar.HourAngles | scripts/yield_day.py:32-33 | column definition, stated entry by entry: the `hra` column is `d2r(15 (h - 12))` of every clock hour, with the same length |
| Solar.DeclinationDeg | scripts/sun_elevation_hours.py:26 | definition: Python's declination `23.433333 sin(2 pi (N + 284) / 365)` in degrees; `DeclinationRange` bounds it |
| Solar.DeclinationRad | scripts/sun_elevation_hours.py:51 | definition: the callbacks' declination `23.433333 * PI / 180 * sin(2 PI (N + 284) / 365)` in radians; `DeclinationForms` relates it to the degree form |
| Solar.SunCoefficients | scripts/yield_day.py:36-37 | definition: `A = sin(decl) sin(lat)`, `B = cos(decl) cos(lat)` from radians; `SunCoefficientsRange` bounds them |
| Solar.DayCoefficients | scripts/yield_day.py:69-73 | definition: the callbacks' `A`, `B` from the sliders, with the radian declination and `LAT = v * PI / 180`; `CoefficientForms` relates them to Python's |
| Solar.PyDayCoefficients | scripts/yield_day.py:29-37 | definition: Python's `A`, `B`, with `d2r` of the degree declination and of the latitude |
| Solar.DeclinationForms | scripts/sun_elevation_hours.py:51 | the callbacks' radian declination is `d2r` of the Python declination in degrees (line 26) |
| Solar.DeclinationRange | scripts/sun_elevation_hours.py:26 | the declination lies within +-23.433333 degrees, and its radian form within the converted bound |
| Solar.SunCoefficientsRange | scripts/yield_day.py:36-37 | both elevation coefficients `A`, `B` lie in [-1, 1] |
| Solar.CoefficientForms | scripts/yield_day.py:72-73 | the callback's `A`, `B` at the same slider values equal the Python build's (lines 36-37), and `v * PI / 180` is `d2r(v)` |
| Solar.Elevation | scripts/yield_day.py:38 | definition: the elevation `asin(A + B cos H)` in radians; `ElevationRange` and `DayTestIsPositiveElevation` state its properties |
| Solar.ElevationRange | scripts/yield_day.py:38 | every elevation `asin(A + B cos H)` lies in [-pi/2, pi/2] |
| Solar.DayTestIsPositiveElevation | scripts/yield_hours_fixed.py:93 | for an elevation, the callbacks' night test `sin(a) > 0` holds iff `a > 0` |
| Solar.Max0 | scripts/sun_elevation_hours.py:58 | `max(0, x)` is at least 0 and at least `x`, and equals one of them |
| Tally.ArgMax | scripts/yield_year.py:49 | numpy's `argmax` is an index of a largest value, and every earlier value is strictly smaller |
| Tally.RunningMax | scripts/yield_year.py:99-111 | definition: the callbacks' scan from `a_max = 0`, `r_max = 0`, taking a sample when `y[i] > r_max`; `RunningMaxIsFirstMax` and `RunningMaxBounds` state what it finds |
| Tally.RunningMaxIsFirstMax | scripts/yield_year.py:99-111 | the scan from `r_max = 0` with strict `>` ends at numpy's first maximum when that maximum is positive, and at `(0, 0)` otherwise |
| Tally.RunningMaxBounds | scripts/yield_year.py:99-111 | the scanned `r_max` is at least 0 and at least every value of the curve |
| Tally.MarkerAt | scripts/yield_year.py:115-116 | marker definition, stated point by point: two points at `x = a_max`, from `y = 0` up to `r_max` |
| Tally.ScanMarkerMatchesNumpy | scripts/yield_year.py:52 | the callback's marker equals the Python build's marker iff the maximum is positive; otherwise it sits at the origin |
| Tally.Arange | scripts/yield_year.py:30 | column definition, stated entry by entry: `arange(n)` is the n integers 0 .. n-1 |
| Tally.Linspace | scripts/yield_year.py:28 | definition: `linspace(lo, hi, n)`, the points `lo + i (hi - lo) / (n - 1)`; `LinspaceEnds` and `LinspaceIncreasing` state its properties |
| Tally.LinspaceEnds | scripts/yield_year.py:28 | `linspace(lo, hi, n)` has n points, the first `lo` and the last `hi` |
| Tally.LinspaceIncreasing | scripts/yield_year.py:28 | on a rising range the grid is strictly increasing |
| Tally.SpacingPositive | scripts/yield_year.py:28 | a later grid point lies strictly above an earlier one |
| Tally.NewColumn | scripts/yield_year.py:50 | handing a column to the plot makes a fresh array holding exactly that column |
| DaySums.DaySum | scripts/yield_year.py:40-44 | definition: the total of `max(sin(b + a), 0)` over the first `i` samples whose elevation the mask keeps, Python's `sin(d2r(beta) + angles).clip(0).sum()` over `angles[angles >= 0]` for `i = n` |
| DaySums.RawSum | scripts/yield_day.py:83-90 | definition: the callback's unclipped `s = s + sin(b + ax)` over the kept samples |
| DaySums.DayCount | scripts/yield_day.py:39 | definition: the number of kept samples, the length of `angles[angles >= 0]` (the callback's `c` counts one more) |
| DaySums.DaySumBounds | scripts/yield_year.py:44 | a day's clipped-sine total lies between 0 and the number of kept samples, which is at most the sample count |
| DaySums.RawAtMostClipped | scripts/yield_day.py:86-88 | the callback's unclipped total never exceeds the clipped total over the same samples |
| DaySums.DaySumMaskSplit | scripts/yield_year.py:41 | keeping `a >= 0` keeps the samples with `a > 0` plus those exactly on the horizon, for the sums and the counts; with none on the horizon the extra part is 0 |
| DaySums.RawSumBounds | scripts/yield_day.py:86-88 | the unclipped total lies between minus and plus the number of kept samples |
| DaySums.DayCountZero | scripts/yield_day.py:39 | no sample is kept iff every elevation fails the mask |
| DaySums.AboveAtMostAtOrAbove | scripts/yield_day.py:87-89 | with no sample on the horizon, the callback's unclipped sum over `a > 0` is at most the Python clipped sum over `a >= 0`, which is at least 0, and both masks keep the same number of samples |
| YieldYear.TimingColumn | scripts/yield_year.py:51 | the timing column has one cosine per time sample |
| YieldYear.CallbackTable | scripts/yield_year.py:82-86 | the callback computes one pair of day coefficients for each of the 365 days |
| YieldYear.PythonTable | scripts/yield_year.py:35-39 | the Python build computes one pair for each of the 365 days |
| YieldYear.SameTables | scripts/yield_year.py:35-39 | both builds compute the same 365 days of coefficients |
| YieldYear.YearSum | scripts/yield_year.py:35-44 | definition: the sum of the day totals over a table of day coefficients; `YearSumStep`, `YearSumBounds` and `AddYear` state its properties |
| YieldYear.YearSumStep | scripts/yield_year.py:82-96 | one more day adds exactly that day's masked clipped-sine total |
| YieldYear.Scale | scripts/yield_year.py:106 | definition: the callback's `s / (365 n) * 200` |
| YieldYear.PyScale | scripts/yield_year.py:46 | definition: Python's `s / (n * 365) * 2 * 100`; `ScaleForms` shows the two agree |
| YieldYear.ScaleForms | scripts/yield_year.py:106 | the callback's `/ (365 n) * 200` equals Python's `/ (n * 365) * 2 * 100` (line 46), and a total in [0, 365 n] scales into [0, 200] |
| YieldYear.YearSumBounds | scripts/yield_year.py:35-44 | a yearly total lies between 0 and one per sample of every day |
| YieldYear.CallbackYield | scripts/yield_year.py:82-106 | definition: the callback's curve, the scaled year total over `a > 0` of the callback's day table |
| YieldYear.InitialYield | scripts/yield_year.py:33-46 | definition: the Python curve, the scaled year total over `a >= 0` of the Python day table |
| YieldYear.YieldBounds | scripts/yield_year.py:46 | both the Python curve and the callback curve stay within [0, 200] |
| YieldYear.HorizonSamples | scripts/yield_year.py:90 | the Python total (`a >= 0`, line 41) is the callback total (`a > 0`) plus a horizon part that is at least 0, and is 0 when no sample is on the horizon |
| YieldYear.InitialAtLeastCallback | scripts/yield_year.py:90 | at the same latitude the Python curve is never below the callback's, and the two are equal when no sample is on the horizon |
| YieldYear.ScaleExtra | scripts/yield_year.py:46 | adding a nonnegative amount never lowers the scaled yield, and adding 0 leaves it unchanged |
| YieldYear.PythonYields | scripts/yield_year.py:33-46 | the Python loops (days outer, tilts inner) produce, for every tilt, the scaled yearly total over `a >= 0` |
| YieldYear.PythonDay | scripts/yield_year.py:43-44 | one day adds to every tilt its own clipped-sine total over the day's `a >= 0` samples |
| YieldYear.YearSource.constructor | scripts/yield_year.py:28-52 | the Python build's columns: tilts 0..89, their radians, the timing column, every yield, and numpy's marker |
| YieldYear.YearSource.PlaceNumpyMarker | scripts/yield_year.py:49-52 | the marker becomes numpy's `argmax`/`max` marker, and the columns stay unchanged |
| YieldYear.YearSource.AddSample | scripts/yield_year.py:91-93 | every tilt gains `max(sin(xx[j] + a), 0)` and nothing else |
| YieldYear.YearSource.AddDay | scripts/yield_year.py:88-95 | every tilt gains exactly the day's clipped-sine total over its `a > 0` samples |
| YieldYear.YearSource.Reset | scripts/yield_year.py:74-76 | every `y` becomes 0, so no earlier value survives |
| YieldYear.YearSource.AddYear | scripts/yield_year.py:82-96 | from zeros, every tilt ends with its yearly total over the callback days |
| YieldYear.YearSource.ScaleAndScan | scripts/yield_year.py:99-111 | every total is scaled in place, and the result is the running-maximum scan of the scaled curve |
| YieldYear.YearSource.OnLatitudeChange | scripts/yield_year.py:69-116 | every `y` is the callback yield of its tilt, the marker is at the scan's maximum, and `x`, `xx` and `t` are unchanged |
| YieldDay.Cosines | scripts/yield_day.py:84 | column definition, stated entry by entry: the cosines of the hour angles |
| YieldDay.PythonMean | scripts/yield_day.py:39-43 | definition: `100 * mean(sin(d2r(b) + angles).clip(0))` over `angles >= 0`, NaN when no sample is kept |
| YieldDay.InitialValue | scripts/yield_day.py:36-43 | definition: the Python mean at the Python build's day coefficients |
| YieldDay.CallbackMean | scripts/yield_day.py:80-92 | definition: `100 s / c` with `s` the unclipped sum over `ax > 0` and `c` one more than their count |
| YieldDay.CallbackValue | scripts/yield_day.py:68-92 | definition: the callback mean at the sliders' day coefficients |
| YieldDay.PythonMeanRange | scripts/yield_day.py:39-43 | the Python mean is NaN iff every sample is below the horizon, and otherwise lies in [0, 100] |
| YieldDay.CallbackMeanRange | scripts/yield_day.py:81-92 | the callback's divisor is at least 1, and its value lies strictly between -100 and 100 |
| YieldDay.CallbackAtMostInitial | scripts/yield_day.py:86-92 | at the Python build's slider values and with no sample on the horizon, the callback value is at most the Python mean (line 43) |
| YieldDay.PolarNight | scripts/yield_day.py:81 | when every sample is below the horizon, Python's mean is NaN while the callback shows 0 |
| YieldDay.PythonValues | scripts/yield_day.py:41-43 | the Python loop appends, for every tilt, its Python mean |
| YieldDay.DayLoop | scripts/yield_day.py:80-91 | the inner loop ends with `s` the unclipped sum over `ax > 0` and `c` one more than the number of such samples |
| YieldDay.DayStep | scripts/yield_day.py:84-90 | one inner iteration: when `ax > 0` it adds `sin(b + ax)` and counts the sample, so the sum and count of the first `j` samples become those of the first `j + 1` |
| YieldDay.CallbackTilt | scripts/yield_day.py:79-92 | one outer step computes `100 s / c` for its tilt |
| YieldDay.DaySource.constructor | scripts/yield_day.py:32-48 | the Python build's columns: tilts 0..89, their radians, the hour angles, every mean, and numpy's marker |
| YieldDay.DaySource.PlaceNumpyMarker | scripts/yield_day.py:45-48 | the marker stops at the first NaN (the top is NaN) and otherwise takes the first maximum; the columns are unchanged |
| YieldDay.DaySource.Recompute | scripts/yield_day.py:78-97 | every `y[i]` is the callback value of tilt `xx[i]`, and the result is the scan of the new curve |
| YieldDay.DaySource.OnSliderChange | scripts/yield_day.py:65-100 | every `y` is the callback value, none is NaN, the marker is at the scan's maximum, and the other columns are unchanged |
| FixedPanel.Ratio | scripts/yield_day_tot_fixed.py:52-59 | definition: the unscaled `sqrt(1 - (V_AB / (V_A V_B))^2) * V_B * V_A`, NaN where a square root's argument is negative or `V_A V_B = 0`; `RatioNonnegative` and `NoonYield` state its properties |
| FixedPanel.Yield | scripts/yield_hours_fixed.py:46-58 | definition: `100 * Ratio`, the `y = 100 * Yield` of line 58 and the callback's `100 * Math.sqrt(...)` (line 105); NaN stays NaN |
| FixedPanel.Spread | scripts/yield_day_tot_fixed.py:53 | `X = 1 + TA^2` is at least 1, so every division by `X` is defined |
| FixedPanel.Sqrt | scripts/yield_hours_fixed.py:49-53 | a square root is NaN iff its argument is negative |
| FixedPanel.RatioNonnegative | scripts/yield_day_tot_fixed.py:59 | the unscaled share is never `1/0`, and a numeric share is at least 0 |
| FixedPanel.YieldNonnegative | scripts/yield_hours_fixed.py:53-58 | the percent yield is NaN exactly when the share is, never `1/0`, and a numeric yield is at least 0 |
| FixedPanel.FirstRootDefined | scripts/yield_hours_fixed.py:49 | `V_A = sqrt(1 - SH^2 / X)` is defined whenever `abs(SH) <= 1` |
| FixedPanel.NoonYield | scripts/yield_hours_fixed.py:49-53 | at `SH = 0` the share is `V_B` and the yield `100 V_B` (NaN when `V_B` is NaN or 0), given `sqrt(1) = 1` |
| NumTally.Add | scripts/yield_day_tot_fixed.py:118 | a sum is NaN iff an operand is NaN, and numeric iff both operands are numeric, with the numbers adding |
| NumTally.AddZero | scripts/yield_day_tot_fixed.py:98 | starting a total from 0 changes nothing |
| NumTally.AddAssoc | scripts/yield_day_tot_fixed.py:118 | sentinel-aware sums may be regrouped |
| NumTally.AddSwap | scripts/yield_day_tot_fixed.py:118 | sentinel-aware sums may be reordered |
| NumTally.Reals | scripts/yield_day_tot_fixed.py:63 | column definition, stated entry by entry: the numbers of a curve where the entry is numeric |
| NumTally.Scan | scripts/yield_day_tot_fixed.py:93-125 | definition: the callback's scan from `(0, 0)`, taking a sample when it is a number above `r_max`; a NaN is never taken; `ScanOfValues` and `ScanBounds` state its properties |
| NumTally.ScanOfValues | scripts/yield_day_tot_fixed.py:122-125 | on a curve with no sentinel, the NaN-aware scan is the plain running maximum |
| NumTally.FirstNaN | scripts/yield_day_tot_fixed.py:63 | the index of the first NaN (or the length): no earlier entry is NaN |
| NumTally.NumpyMarker | scripts/yield_day_tot_fixed.py:63-66 | the Python marker is two points at one `x` starting at 0; with a NaN its top is NaN at the first NaN's tilt |
| NumTally.ScanMarker | scripts/yield_day_tot_fixed.py:131-132 | definition: the callback's marker `x = [a_max, a_max]`, `y = [0, r_max]` |
| NumTally.ScanMarkerVersusNumpy | scripts/yield_day_tot_fixed.py:122-132 | with no NaN the callback's marker is numpy's iff the maximum is positive, otherwise the origin; with a NaN numpy's top is NaN while the callback's is a number |
| NumTally.ScanBounds | scripts/yield_day_tot_fixed.py:122-125 | the scanned `r_max` is at least 0 and at least every numeric value |
| YieldDayTotFixed.TimingOf | scripts/yield_day_tot_fixed.py:31-34 | the timing columns hold `hra`, `cos(hra)` and `sin(hra)` for every clock hour |
| YieldDayTotFixed.PanelAt | scripts/yield_day_tot_fixed.py:46-59 | definition: the per-sample `Yield` with `TA = tan(alpha.clip(0))`, the unscaled `FixedPanel.Ratio` with no factor 100 |
| YieldDayTotFixed.DayTotal | scripts/yield_day_tot_fixed.py:59-60 | definition: `Yield[msk].sum()` of the unscaled per-sample yield, added from the front over the kept samples, a NaN absorbing the total |
| YieldDayTotFixed.Percent | scripts/yield_day_tot_fixed.py:60 | definition: `100 * s / n`, the only factor 100 of the plot; NaN stays NaN |
| YieldDayTotFixed.TiltValue | scripts/yield_day_tot_fixed.py:121 | definition: `Percent` of a tilt's masked total, the value both builds plot |
| YieldDayTotFixed.InitialValue | scripts/yield_day_tot_fixed.py:36-60 | definition: the Python value of a tilt, over `alpha >= 0` at the Python build's day coefficients |
| YieldDayTotFixed.CallbackValue | scripts/yield_day_tot_fixed.py:86-121 | definition: the callback value of a tilt, over `alpha > 0` at the sliders' day coefficients |
| YieldDayTotFixed.DayTotalNonnegative | scripts/yield_day_tot_fixed.py:59-60 | a tilt's total is never `1/0`, and a numeric total is at least 0 |
| YieldDayTotFixed.DayTotalMaskSplit | scripts/yield_day_tot_fixed.py:42 | the total over `alpha >= 0` is the total over `alpha > 0` (line 104) plus the total exactly on the horizon |
| YieldDayTotFixed.NoHorizonTotal | scripts/yield_day_tot_fixed.py:42 | with no sample on the horizon, the horizon total is 0 |
| YieldDayTotFixed.InitialAtLeastCallback | scripts/yield_day_tot_fixed.py:104 | at the Python build's slider values, a NaN callback value is NaN in Python too, and a numeric Python value is at least the callback's numeric value; with no sample on the horizon they are equal |
| YieldDayTotFixed.PercentOfSplit | scripts/yield_day_tot_fixed.py:60 | adding a NaN or a nonnegative total can make `100 s / n` NaN or raise it, never lower it, and adding 0 changes nothing |
| YieldDayTotFixed.OneSampleValue | scripts/yield_day_tot_fixed.py:59-60 | on a day of one sample above the horizon, the plotted value is 100 times that sample's unscaled share (NaN when it is NaN), under either daytime mask |
| YieldDayTotFixed.PythonValues | scripts/yield_day_tot_fixed.py:49-60 | the Python loop appends, for every tilt, `100 * Yield[msk].sum() / len(hra)`: the per-sample `Yield` is the unscaled `FixedPanel.Ratio`, and the only factor 100 is the one of line 60 |
| YieldDayTotFixed.CallbackTotal | scripts/yield_day_tot_fixed.py:98-120 | the inner loop ends with `s` the NaN-aware total of the unscaled `yield` (line 116, `FixedPanel.Ratio`) over the samples with `alpha > 0` |
| YieldDayTotFixed.CallbackStep | scripts/yield_day_tot_fixed.py:100-118 | one sample adds its unscaled `yield` when `alpha > 0`, turning the total of the first `j` samples into the total of the first `j + 1` |
| YieldDayTotFixed.CallbackTilt | scripts/yield_day_tot_fixed.py:96-121 | one outer step computes `100 * s / timing.t.length` of the unscaled total, dividing by all `n` samples and not by the daytime ones |
| YieldDayTotFixed.TiltCosines | scripts/yield_day_tot_fixed.py:64 | column definition, stated entry by entry: the `cb` column is `cos(d2r(beta))` of every tilt |
| YieldDayTotFixed.TiltSines | scripts/yield_day_tot_fixed.py:64 | column definition, stated entry by entry: the `sb` column is `sin(d2r(beta))` of every tilt |
| YieldDayTotFixed.DayTotalSource.constructor | scripts/yield_day_tot_fixed.py:31-66 | the Python build's columns: 200 tilts from 0 to 90, their `cb`/`sb`, the timing columns, every `vals` entry `100 * Yield[msk].sum() / len(hra)` of the unscaled yield, and numpy's marker |
| YieldDayTotFixed.DayTotalSource.PlaceNumpyMarker | scripts/yield_day_tot_fixed.py:63-66 | the marker becomes numpy's, and the columns stay unchanged |
| YieldDayTotFixed.DayTotalSource.Recompute | scripts/yield_day_tot_fixed.py:96-126 | every `y[i]` is `100 * s / timing.t.length` of the unscaled total of its tilt, and the result is the NaN-skipping scan of the new curve |
| YieldDayTotFixed.DayTotalSource.OnSliderChange | scripts/yield_day_tot_fixed.py:83-132 | every `y` is the callback value `100 * s / n` of the unscaled total, the marker is at the scan's maximum, and the other columns are unchanged |
| YieldHoursFixed.PySample | scripts/yield_hours_fixed.py:42-54 | definition: the Python sample, NaN where `alpha < 0` and otherwise the percent yield with `TA = tan(alpha.clip(0))` |
| YieldHoursFixed.JsSample | scripts/yield_hours_fixed.py:91-112 | definition: the callback sample, the percent yield with `TA = tan(a)` where `sin(a) > 0`, and `1/0` otherwise |
| YieldHoursFixed.InitialValue | scripts/yield_hours_fixed.py:32-58 | definition: the Python `y` entry of a clock hour at the Python build's slider values |
| YieldHoursFixed.CallbackValue | scripts/yield_hours_fixed.py:76-112 | definition: the callback's `y` entry from a sample's `h`, `ch`, `sh` and the sliders |
| YieldHoursFixed.NightSentinels | scripts/yield_hours_fixed.py:54 | below the horizon Python gives NaN and the callback `1/0` (line 111); exactly on the horizon Python computes the formula while the callback gives `1/0`; above it both give the same formula |
| YieldHoursFixed.CallbackVersusInitial | scripts/yield_hours_fixed.py:90-112 | at the Python build's slider values, the callback redraws every daytime sample unchanged, turns NaN nights into `1/0`, and blanks the samples exactly on the horizon |
| YieldHoursFixed.HourlySource.constructor | scripts/yield_hours_fixed.py:32-58 | the Python build's columns: hours from 0 to 24, `h`, `ch`, `sh` and every initial sample |
| YieldHoursFixed.HourlySource.OnSliderChange | scripts/yield_hours_fixed.py:90-114 | every `y` is recomputed from its own `h`, `ch`, `sh` and the sliders, and `x`, `h`, `ch`, `sh` are unchanged |
| YieldRotativeHours.HourColumn | scripts/yield_rotative_hours.py:36 | definition: the `h` column entry `hra * pi / 180` |
| YieldRotativeHours.HourColumnIsRadians | scripts/yield_rotative_hours.py:36 | the `h` column `hra * pi / 180` is `d2r` of the hour angle (line 32), and 0 at noon |
| YieldRotativeHours.InitialValue | scripts/yield_rotative_hours.py:32-36 | definition: the Python `y` entry `100 sin(angles)`, with no tilt and no night masking |
| YieldRotativeHours.CallbackSample | scripts/yield_rotative_hours.py:62-69 | definition: `100 sin(max(0, a + beta))` where `sin(a) > 0`, and `1/0` otherwise |
| YieldRotativeHours.DayAndNight | scripts/yield_rotative_hours.py:63-68 | above the horizon the sample is `100 sin(max(0, a + beta))`; on or below it the sample is `1/0` |
| YieldRotativeHours.ZeroTiltMatchesInitial | scripts/yield_rotative_hours.py:65-66 | at the default tilt 0 the callback's daytime samples equal the Python `100 sin(angles)` (line 36); the night samples it replaces by `1/0` were not positive |
| YieldRotativeHours.TrackingSource.constructor | scripts/yield_rotative_hours.py:31-36 | the Python build's columns: hours from 0 to 24, `h` in radians and `100 sin(angles)` |
| YieldRotativeHours.TrackingSource.OnSliderChange | scripts/yield_rotative_hours.py:61-71 | every `y` is recomputed from its own `h` and the sliders, and `x` and `h` are unchanged |
| SunElevationHours.InitialValue | scripts/sun_elevation_hours.py:29-34 | definition: the Python `y` entry `r2d(asin(...))` at `d2r(15 (h - 12))`, not clipped |
| SunElevationHours.CallbackValue | scripts/sun_elevation_hours.py:54-58 | definition: the callback's `y` entry, the elevation in degrees clipped by `Math.max(0, ...)` |
| SunElevationHours.InitialNotClipped | scripts/sun_elevation_hours.py:31-34 | the initial curve is not clipped: a sample is negative iff the sun is below the horizon |
| SunElevationHours.CallbackClipsInitial | scripts/sun_elevation_hours.py:54-58 | at the initial slider values the callback draws `max(0, initial)`, never negative, and equal to the initial value where that is at least 0 |
| SunElevationHours.ElevationSource.constructor | scripts/sun_elevation_hours.py:29-34 | the Python build's columns: hours from 0 to 24, `hra` in radians and the unclipped elevation in degrees |
| SunElevationHours.ElevationSource.OnSliderChange | scripts/sun_elevation_hours.py:54-59 | every `y` is recomputed from its own `hra` and the sliders alone and ends at least 0, and `x` and `hra` are unchanged |
| ShadeHouseTree.Y0Py | scripts/shade_house_tree.py:79 | definition: `y0 = tree_h + abs(x0) t_sun` |
| ShadeHouseTree.Y0Js | scripts/shade_house_tree.py:191 | definition: `y0 = tree_h - x0 t_sun` |
| ShadeHouseTree.X1 | scripts/shade_house_tree.py:80 | definition: `x1 = tree_h / t_sun`, where the grazing ray meets the ground |
| ShadeHouseTree.X2 | scripts/shade_house_tree.py:81 | definition: `x2 = wall_h / t_sun + wall_d`, where the ray over the wall top meets the ground |
| ShadeHouseTree.YLight | scripts/shade_house_tree.py:84 | definition: `y_light = tree_h - t_sun wall_d`, the ray's height at the wall |
| ShadeHouseTree.Classify | scripts/shade_house_tree.py:87-110 | definition: the two nested tests `y_light < wall_h`, then `x1 > wall_d`; `CasePartition` and `HalfLightTest` state what they select |
| ShadeHouseTree.HalfLightTest | scripts/shade_house_tree.py:90 | the half-light test `x1 > wall_d` holds iff the grazing ray is still above the ground at the wall, `y_light > 0` |
| ShadeHouseTree.CasePartition | scripts/shade_house_tree.py:84-110 | the three cases partition the scenes by `y_light`: shaded iff `y_light >= wall_h`, half lit iff `0 < y_light < wall_h`, fully lit iff `y_light <= 0` and `y_light < wall_h` |
| ShadeHouseTree.Y0Forms | scripts/shade_house_tree.py:79 | Python's `tree_h + abs(x0) t` equals the callback's `tree_h - x0 t` (line 191) |
| ShadeHouseTree.RayCollinear | scripts/shade_house_tree.py:78-84 | `(x0, y0)`, the tree top, `(wall_d, y_light)` and `(x1, 0)` all lie on the ray `y = tree_h - t x` |
| ShadeHouseTree.PyRay | scripts/shade_house_tree.py:86-110 | definition: the Python ray polygon of each case; `PyRayShape` and `RayCollinear` state its geometry |
| ShadeHouseTree.JsRay | scripts/shade_house_tree.py:196-218 | definition: the callback's `lst_x`, `lst_y` of each case; `JsRayCount`, `PyJsRayRelation` and `SameOutline` relate it to Python's |
| ShadeHouseTree.PyRayShape | scripts/shade_house_tree.py:86-110 | the Python polygon has 6, 7 or 4 vertices in the half-lit, fully lit and shaded cases; each edge is parallel to the ray (slope `-t`), horizontal or vertical, at the stated heights |
| ShadeHouseTree.JsRayCount | scripts/shade_house_tree.py:196-218 | the callback always emits 7 x and 7 y values |
| ShadeHouseTree.PyJsRayRelation | scripts/shade_house_tree.py:201-218 | the callback polygon equals Python's when fully lit, doubles the wall-top shadow point when half lit, and repeats the last vertex three more times when shaded |
| ShadeHouseTree.Points | scripts/shade_house_tree.py:227-228 | vertex-list definition, stated entry by entry: the polygon's vertices are the pairs of its x and y columns |
| ShadeHouseTree.OutlineRepeat | scripts/shade_house_tree.py:205 | repeating a vertex does not change the drawn outline |
| ShadeHouseTree.SameOutline | scripts/shade_house_tree.py:201-218 | in every case the callback and the Python build draw the same outline |
| ShadeHouseTree.FullLightOrdering | scripts/shade_house_tree.py:94-96 | fully lit, with positive heights: `x0 < x1 <= wall_d < x2 < x2 + 3`, and the polygon's x-coordinates follow that order |
| ShadeHouseTree.DefaultSceneCases | scripts/shade_house_tree.py:50 | the default scene is fully lit at 50 degrees, half lit at 30 and shaded at 10 |
| ShadeHouseTree.Largest | scripts/shade_house_tree.py:232 | `Math.max(...lst_x)` is an entry of the list and at least every entry |
| ShadeHouseTree.Scaled | scripts/shade_house_tree.py:63 | column definition, stated entry by entry: the tree's `y` is `tree_height * v` of every unit-height `y0` |
| ShadeHouseTree.ShadeView.constructor | scripts/shade_house_tree.py:59-112 | the Python build: the tree scaled by its height, the wall at `wall_d` up to `wall_h`, the Python ray polygon, and the ground from -2 to 12 |
| ShadeHouseTree.ShadeView.OnTreeHeight | scripts/shade_house_tree.py:143-146 | every tree `y[i]` becomes `y0[i] * v`; the tree's `x` and `y0` and both wall columns are unchanged |
| ShadeHouseTree.ShadeView.OnWallDistance | scripts/shade_house_tree.py:159-161 | both wall x values become `v`; the wall's y values and all three tree columns are unchanged |
| ShadeHouseTree.ShadeView.OnWallHeight | scripts/shade_house_tree.py:170 | only the wall top `y[1]` changes: the wall's x values, its base and all three tree columns are unchanged |
| ShadeHouseTree.ShadeView.OnSceneChange | scripts/shade_house_tree.py:184-233 | the ray becomes the callback polygon, with 7 vertices; the ground's right edge is `max(lst_x) + 2`, two units past every ray vertex; the other ground vertices, the tree and the wall are unchanged |
| ShadePanelSpacing.SkyHeight | scripts/shade_panel_spacing.py:56 | `H1 = 2 max(1, H)` is at least 2 and above `H` |
| ShadePanelSpacing.Shapes | scripts/shade_panel_spacing.py:56-76 | definition: the panel, ground and sunny-area columns for rise `H`, run `D` and sun tangent `t`; `LayoutGeometry` and `LayoutOrder` state their geometry |
| ShadePanelSpacing.InitialLayout | scripts/shade_panel_spacing.py:53-76 | definition: the Python build, `H = size sin(d2r(panel))`, `D = size cos(d2r(panel))`, tangent of `d2r(sun)` |
| ShadePanelSpacing.CallbackLayout | scripts/shade_panel_spacing.py:117-137 | definition: the callback, with the conversion `v / 180 * PI` |
| ShadePanelSpacing.CallbackReproducesInitial | scripts/shade_panel_spacing.py:117-137 | the callback's conversion `v / 180 * PI` and its `H`, `D` are the Python build's (lines 53-54), so both feed the same `Shapes` and the initial slider values reproduce the initial figure; a one-step fact |
| ShadePanelSpacing.LayoutGeometry | scripts/shade_panel_spacing.py:53-76 | the panel runs from the origin to `(D, H)`; the shadow tip satisfies `H - t D1 = 0`; the sunny polygon has 7 vertices and the ground 4; its three slanted sides have slope `-t`; its top lies above the panel; the ground ends at the polygon's fifth x, `D + D1 + 1` |
| ShadePanelSpacing.LayoutOrder | scripts/shade_panel_spacing.py:74 | for a panel with `H, D >= 0`, the ground vertices of the sunny area run left to right |
| ShadePanelSpacing.ShadowBehindPanel | scripts/shade_panel_spacing.py:98-126 | at the slider's 90-degree end the callback's tangent is negative; for any negative tangent and `H > 0` the shadow tip lies left of `D` and the sky edge right of the ground end, so the polygon folds over itself |

## Left out

- Plotting and page output are not modelled: figures, patches and lines,
  hover tools, the construction of sliders, `js_on_change` wiring,
  `change.emit()`, styling, `output_file`/`show` and `console.log`. They only
  draw.
- The values of `sin`, `cos`, `tan`, `asin` and `sqrt` are not computed, and
  neither is the difference between numpy's pi and the callbacks' literal
  `3.14159265359`. Both are floating-point numerics. The model takes the
  functions and pi as parameters, and one value of pi serves both builds.
- IEEE arithmetic is out of scope. NaN and `1/0` are sentinel constructors,
  and every other value is an exact real.
- The callbacks' `x > r_max` scan on a `1/0` sample is not modelled: the
  scan only takes numeric samples. The curves that are scanned never hold
  `1/0` (`DayTotalNonnegative`).
- The static tree silhouette (scripts/shade_house_tree.py:54-64) is an input
  of `ShadeView.constructor`. It is drawing data.
- Unused values are not modelled: `TH`, `r2d` in most scripts, `vv`, the
  callback's `const TH`, and the first `X = 1 + TH^2 + TA^2`
  (scripts/yield_day_tot_fixed.py:45-47), which is overwritten before use.
- The number of time samples is a parameter in yield_year,
  yield_hours_fixed, yield_rotative_hours and sun_elevation_hours, where the
  scripts fix it at 200 or 500. The bounds hold for any count of at least 2.
- YieldYear.YearSource.AddYear: the day coefficients are precomputed as a
  table and handed in. The callback computes each day's pair inside the day
  loop; `CallbackTable` is the same values.
- Python's `mean` of an empty array is modelled as NaN. The runtime warning
  it prints is not modelled.
- The running time of the 365 x 200 x 90 loop is not modelled.
- The physical claims are not proved: optimal tilt near the latitude,
  unimodal yield curves, and a fixed-panel yield of at most 100. They need
  trigonometric facts beyond the range facts the model assumes.
- The example yield of 100 at tilt 0, noon and elevation 90 degrees is not
  proved. It needs `tan` at exactly 90 degrees, which has no value; the yield
  scripts never evaluate it. `NoonYield` states the noon case for any
  elevation.
- ShadeHouseTree: the shadow geometry takes the sun's tangent `t > 0` as
  given. That script's sun slider runs from 1 to 89 degrees
  (scripts/shade_house_tree.py:132).
- ShadePanelSpacing.CallbackLayout: the callback's literal `PI =
  3.14159265359` is modelled as pi, so the model does not compute the
  tangent at the slider's 90-degree end (scripts/shade_panel_spacing.py:98).
  There the source's `Math.tan(90 / 180 * 3.14159265359)` is a large negative
  number, because the literal exceeds pi. `Shapes` accepts any nonzero
  tangent; `ShadowBehindPanel` states what a negative one draws, and
  `LayoutOrder` holds only for a positive one.
