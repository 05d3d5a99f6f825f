# SCGMonitoring core in Dafny

SCGMonitoring watches a browser-based supply-chain simulation game. It polls
the game's pages, extracts `(day, value)` time series and history tables
from the HTML, and turns them into dashboards and text summaries. This
project models and proves the parts of it that compute something:

- **The time-series engine `PlotData`** (`plot_data.py`), in modules
  `Series`, `Resample`, `Combine` and `Cumulate`. It covers:
  - filtering a series from a day on;
  - bucketing samples per rounded day with MAX, MIN, LAST or mean, with
    optional carry-forward gap filling;
  - centred moving-window smoothing;
  - index-wise combination of value lists, and of several series onto the
    first series' day axis;
  - running totals;
  - in-place scaling of the values.

  `PlotData` is a class whose methods are loops proved against
  specification functions. The properties of those functions are proved as
  lemmas.
- **`TeamData` and `TeamStandingData`** (`team_standing_data.py`), in module
  `TeamStanding`. A team's standings are a list of day points that is
  re-sorted and averaged per day after every insert. The class invariant is
  "strictly ascending by day".
- **`HistoryData`** (`history_data.py`), in module `History`. It splits the
  history table into rows, parses each row, groups the records by operation
  type and filters them by truncated day.
- **The summary helpers of `plotter_main.py`**, in module `Plotter`:
  - pending orders and pending transports per region;
  - the URL escaper and the all-zero check;
  - the factory-configuration cell;
  - label and point-token pairing of a plot fragment.
- **The operation classifier and constants of `values.py`** (module
  `Values`), the substring search of `string_helper.py` (module
  `StringHelper`), and the shipping-configuration summary of
  `factory_data.py` (module `Factory`).

Shared vocabulary lives in small modules:
- `Outcomes`: Option and Result;
- `Folds`: sum, max, min and mean as left folds, mirroring the source's
  accumulator loops;
- `Points`: a point, stable sort by day, and the day filter;
- `Grouping`: runs of equal keys.

Python floats are modelled as `real`. Python's `round` is modelled as
round-half-to-even. The conversion of text to a number (`float(...)`) is a
function parameter. A Python exception that the code lets escape becomes an
error value (`Result`).

### Behaviour worth knowing

A few places where the code does something a reader might not expect.
The model does what the code does in each of them:

- **Smoothing input** (`plot_data.py:101`): the series is resampled without
  gap filling, with the caller's aggregate type.
- **Smoothing half-window**: it is `round((n-1)/2)` with half-to-even
  rounding, not a floor.
- **Empty smoothing windows**: the code divides by zero whenever a window
  is empty. That happens for every non-empty series when `0 <= n <= 2`, and
  for a one-point series for any `n >= 0`. The model returns `Err(ZeroDivision)`, so a
  window of 1 does not give back the input series.
- **Running totals** (`plot_data.py:247`): `cumulate_plot_data` resamples
  from day 0 *with* gap filling. So array index equals day, and the
  `[from_day:]` slice keeps exactly the days at or after `from_day`.
- **Single-series SUM** (`plot_data.py:86-93`): at the single-series level
  SUM, like every type other than MAX/MIN/LAST, gives the mean of the
  bucket.
- **Combined length** (`plot_data.py:210`): the result of
  `aggregate_lists_by_index` is as long as the *first* list, whatever the
  other lengths.

## Model

| member | source | states |
|---|---|---|
| Values.ClassifierIsOrderedScan | values.py:53-71 | the if/elif chain is the ordered scan over the eight (key, type) pairs that returns the first key contained in the string, else UNDEFINED |
| Values.FirstMatchIsFirst | values.py:53-71 | an ordered scan returns UNDEFINED iff no key occurs; otherwise it returns the type of a key that occurs with no earlier key occurring |
| Values.HistoryOperationTypeIsFirstMatch | values.py:53-71 | `get_history_operation_type` is UNDEFINED exactly when none of the eight keys occurs; otherwise its key occurs and no earlier key does |
| Values.RegionsDistinct | values.py:4 | there are exactly five region names and they are pairwise distinct |
| StringHelper.FindFrom | string_helper.py:10 | `str.index(sub, i)`: the result is an occurrence at or after `i` with none before it, and None means no occurrence at or after `i` |
| StringHelper.StartPosition | string_helper.py:10 | a non-negative start is kept; a negative start counts from the end of the string and stays within it |
| StringHelper.GetIndex | string_helper.py:4-13 | None source or None search string raise; otherwise the result exists iff the search string occurs at or after start, and it is the first such occurrence, moved past the match when the flag is set; it is at least a non-negative start and at most the source length with the flag |
| StringHelper.SplitJoin | history_data.py:43 | `str.split(sep)` loses nothing: joining the pieces with the separator gives back the string |
| StringHelper.SplitAt | history_data.py:43 | splitting at the first separator gives the prefix followed by the split of the rest |
| StringHelper.SplitPiecesFree | history_data.py:43 | no piece of a split contains the separator |
| StringHelper.NoOccurrenceNoContains | string_helper.py:10 | a prefix in which the search string occurs at no position does not contain it |
| StringHelper.ReplaceChar | history_data.py:52 | `str.replace(c, w)` for a one-character `w` keeps the length and replaces exactly the occurrences of `c`; no `c` survives when `w` does not contain it |
| StringHelper.ReplaceIsJoinSplit | history_data.py:52 | `s.replace(c, w)` is `w.join(s.split(c))`, Python's own definition: every other character is kept, in order, and each `c` becomes `w`, so `replace(',', '')` deletes exactly the commas |
| StringHelper.ReplaceLength | history_data.py:52 | the result is longer by `len(w) - 1` per occurrence of `c`, so an empty `w` shortens it by exactly the number of `c`s |
| StringHelper.ReplaceAppend | history_data.py:52 | replacing in a concatenation is the concatenation of the replacements |
| Folds.MaxFromIsMaximum | plot_data.py:67-71 | the running maximum is at least the start and every value, and is the start or one of the values |
| Folds.MinFromIsMinimum | plot_data.py:74-78 | the running minimum is at most the start and every value, and is the start or one of the values |
| Folds.SumAppend | plot_data.py:87-93 | the sum of a concatenation is the sum of the parts |
| Folds.SumSliceStep | team_standing_data.py:78-81 | extending a summed slice by one element adds that element |
| Folds.SumBounds | plot_data.py:87-93 | a sum of values between lo and hi lies between n·lo and n·hi |
| Folds.SumConstant | plot_data.py:49 | a sum of n copies of c is n·c |
| Folds.MeanBetween | plot_data.py:93 | a mean lies within the bounds of its values |
| Points.Insert | plot_data.py:30 | inserting one point adds exactly that point to the multiset |
| Points.InsertSorted | plot_data.py:30 | inserting a point into a day-sorted list keeps it sorted |
| Points.SortByDay | plot_data.py:30 | `sorted(points, key=day)` is sorted by day and a permutation of its input |
| Points.InsertStable | plot_data.py:30 | insertion keeps the relative order of the points of any one day |
| Points.SortIsStable | plot_data.py:30 | the sort is stable: the points of each day keep their input order |
| Points.SortOfSorted | team_standing_data.py:68 | sorting an already sorted list changes nothing |
| Points.AtOrAfterMembers | plot_data.py:31-35 | the filter keeps exactly the points with day at least `from_day`, never more points than the input |
| Points.AtOrAfterIsSuffix | plot_data.py:31-35 | on a list whose early points come first, the filter is the suffix from the first kept point, as the backward boundary search computes |
| Points.AtOrAfterSorted | plot_data.py:31-35 | filtering a sorted list leaves it sorted |
| Grouping.RunEnd | plot_data.py:68 | the inner merge loop stops after the run of keys equal to the first one: every key in the run equals it and the next key (if any) differs |
| Grouping.RunContinues | plot_data.py:68 | a key inside the scanned range that still equals the run's key is inside the run |
| Grouping.GroupsShape | team_standing_data.py:71-84 | there are at most as many groups as keys, every group is non-empty and its key is one of the keys |
| Grouping.GroupsNonEmpty | team_standing_data.py:71-84 | every group holds at least one value |
| Grouping.GroupsCoverKeys | team_standing_data.py:71-84 | every key of the input has a group |
| Grouping.GroupKeysAscend | team_standing_data.py:71-84 | on sorted keys the group keys strictly ascend |
| Grouping.SelectRun | team_standing_data.py:78-81 | the values of a key start with the run of that key |
| Grouping.SelectSkip | team_standing_data.py:78-81 | positions with another key contribute nothing to a key's values |
| Grouping.GroupIsSelect | team_standing_data.py:71-84 | on sorted keys each group holds exactly all the values of its key, in input order |
| Resample.Round | plot_data.py:53 | Python `round`: the result is an integer within one half of the argument, and a tie goes to the even integer |
| Resample.RoundMonotone | plot_data.py:53 | rounding is monotone, so sorted days stay sorted after rounding |
| Resample.RoundOfInteger | plot_data.py:53 | an integer day rounds to itself |
| Resample.Range | plot_data.py:48 | `range(lo, hi)`: hi−lo consecutive integers from lo, or nothing |
| Resample.RangeSplit | plot_data.py:61-64 | a range is the part before a day, the day, and the part after it |
| Resample.Repeat | plot_data.py:49 | `[v] * n`: n copies of v, or nothing for n ≤ 0 |
| Resample.AggregateExtremes | plot_data.py:66-84 | a MAX bucket value is at least every sample, a MIN one at most every sample, and MAX, MIN and LAST values are samples of the bucket |
| Resample.AggregateWithin | plot_data.py:66-93 | whatever the type, a bucket value lies within the bounds of its samples |
| Resample.Keys | plot_data.py:95 | the emitted days of the buckets are the bucket keys, in order |
| Resample.Aggregates | plot_data.py:66-96 | the emitted values are the aggregates of the buckets, in order |
| Resample.EmitPlain | plot_data.py:52-96 | without gap filling, entry m is bucket m's day and its aggregate |
| Resample.EmitStep | plot_data.py:57-96 | one round of the outer loop: the gap days carrying the last value, then the bucket day with its aggregate |
| Resample.EmitLengths | plot_data.py:95-96 | x and y always grow together |
| Resample.EmitFilledDays | plot_data.py:58-64 | with gap filling and ascending buckets, x is exactly the consecutive days from the start to the last bucket |
| Resample.EmitValuesAt | plot_data.py:58-96 | positionally: gap entries carry the previous value, then the bucket entry, then the rest |
| Resample.EmitValuesFilledAt | plot_data.py:58-96 | with gap filling, bucket m's value sits at index (its day − start) |
| Resample.EmitValuesCarryAt | plot_data.py:60-64 | with gap filling, an entry that is not a bucket day repeats the previous value, or the initial value at index 0 |
| Resample.EmitFilledBuckets | plot_data.py:58-96 | with gap filling, each bucket's aggregate is at index (its day − start) |
| Resample.EmitFilledCarry | plot_data.py:58-64 | with gap filling, every inserted day carries the previous y, or the initial value at index 0 |
| Resample.FromDayPointsMembers | plot_data.py:28-35 | `get_from_day_points` is sorted by day and keeps exactly the points with day ≥ `from_day` |
| Resample.RoundedDaysSorted | plot_data.py:53 | the rounded days of a day-sorted list are sorted |
| Resample.BucketsAscend | plot_data.py:52-96 | bucket days strictly ascend and none is before `from_day` |
| Resample.BucketsHoldValues | plot_data.py:52-96 | each bucket holds exactly the kept samples whose day rounds to the bucket day, in sorted order |
| Resample.BucketsCoverKept | plot_data.py:52-96 | a day is a bucket day iff some kept sample rounds to it |
| Resample.SomeKept | plot_data.py:47 | when some sample is at or after `from_day`, the filtered list is non-empty |
| Resample.AggregatedByDayNoSamples | plot_data.py:47-49 | the filtered list is empty iff every sample is earlier than `from_day`, and then x is `from_day..from_day+lastXDays` and y is `lastXDays+1` zeros |
| Resample.AggregatedByDayPlain | plot_data.py:52-96 | without gap filling, x strictly ascends, holds exactly the days some kept sample rounds to, and y is the MAX, MIN, LAST or mean (any other type, SUM included) of that day's samples |
| Resample.AggregatedIsEmit | plot_data.py:52-96 | with samples, the output is the bucket emission from `from_day` with initial carried value 0 |
| Resample.AggregatedByDayFilledDays | plot_data.py:58-64 | with gap filling, x is the contiguous run `from_day, from_day+1, …` |
| Resample.AggregatedByDayFilledLastDay | plot_data.py:52-96 | with gap filling, the last x is a sampled day and no kept sample rounds past it |
| Resample.AggregatedByDayFilledBuckets | plot_data.py:52-96 | with gap filling, every sampled day carries its bucket's aggregate |
| Resample.FilledBucketAt | plot_data.py:52-96 | one index of the previous statement: a sampled day in the filled output holds its bucket's aggregate |
| Resample.AggregatedByDayFilledCarry | plot_data.py:58-64 | with gap filling, every unsampled day carries the previous y, or 0 at the first index |
| Resample.HalfWindowZero | plot_data.py:106-107 | the half-window `round((n-1)/2)` is non-negative and zero exactly when n ≤ 2 |
| Resample.WindowBounds | plot_data.py:106-107 | the clamped window start and end lie within the series and around i |
| Resample.WindowEmptyIff | plot_data.py:106-110 | a window is empty (the division by zero) iff the half-window is 0 or the series has one point |
| Resample.SmoothInput | plot_data.py:101 | the smoothing input is a resampled series, so its axes have equal length |
| Resample.EmitLengthsOf | plot_data.py:98 | `get_from_day_aggregated_by_day` returns axes of equal length |
| Resample.SmoothPrefixFails | plot_data.py:105-110 | the smoothing loop raises iff some visited index has an empty window |
| Resample.SmoothedFromSnoc | plot_data.py:110-113 | appending the value of the next index keeps the output the smoothed values of consecutive indices |
| Resample.SmoothPrefixOutput | plot_data.py:105-113 | without empty windows, after k rounds x holds the days ≥ `from_day` among the first k, and y their window means |
| Resample.SmoothedFails | plot_data.py:100-115 | smoothing fails iff the resampled input is non-empty and n ≤ 2 or it has one point |
| Resample.SmoothedAtWithin | plot_data.py:108-110 | a window mean lies within the bounds of the series |
| Resample.SmoothedOutput | plot_data.py:100-115 | on success, x is exactly the resampled days ≥ `from_day` and y has the same length |
| Resample.SmoothedValues | plot_data.py:100-115 | on success, each y is sum(y[s:e])/(e−s) over the clamped window, which excludes y[e] |
| Resample.SmoothPrefixSucceeds | plot_data.py:105-113 | a completed smoothing loop keeps exactly the days ≥ `from_day` with their window means |
| Combine.PresentMembers | plot_data.py:214-239 | at index j, the present values are exactly the j-th entries of the lists long enough |
| Combine.PresentHas | plot_data.py:215 | a list long enough contributes its j-th value |
| Combine.PresentFirst | plot_data.py:210 | the first list is always present, so at least one value is |
| Combine.PresentAll | plot_data.py:214-239 | when all lists are long enough, the present values are the column |
| Combine.AggregateLists | plot_data.py:207-242 | the combined list is as long as the first list and entry j is the combination of the present j-th values |
| Combine.CombineMax | plot_data.py:213-218 | MAX is never negative, is at least every present value, and is 0 or one of them |
| Combine.CombineMin | plot_data.py:220-226 | MIN is at most every present value and is one of them, so never infinity |
| Combine.CombineFull | plot_data.py:228-240 | when all lists are long enough, SUM is the column sum and AVG its mean |
| Combine.CombineMeanWithin | plot_data.py:234-240 | AVG lies within the bounds of the present values |
| Combine.AggregateListsShorterLater | plot_data.py:228-232 | SUM of `[[1,2,3],[4,5]]` is `[5,7,3]` |
| Combine.AggregateListsMeanOfPresent | plot_data.py:234-240 | AVG divides by the number of present values: `[[2,4],[6]]` gives `[4,4]` |
| Combine.AggregateListsFirstDecidesLength | plot_data.py:210 | entries past the first list's length are ignored: `[[4,5],[1,2,3]]` sums to `[5,7]` |
| Combine.AggregateListsMaxFloor | plot_data.py:211-218 | MAX starts at 0.0, so negative columns give 0 |
| Combine.AsReals | plot_data.py:197-198 | resampled integer days become the same real days |
| Combine.Zip | plot_data.py:197-198 | pairing keeps the length and pairs entries index by index |
| Combine.SeriesAligned | plot_data.py:177-189 | each series' day axis and value axis have the same length |
| Combine.AllSeriesY | plot_data.py:184-189 | one value list per input series, each that series' values |
| Combine.CollectedYStep | plot_data.py:184-189 | one round of the collecting loop extends the collected prefix |
| Combine.AllSeriesYOf | plot_data.py:184-189 | the completed loop collected exactly the value lists of all series |
| Combine.AggregatedPointsAligned | plot_data.py:175-198 | with input, the points take their days from the first series and their values from the index-wise combination, and as many as the first series has, so the length-mismatch return never fires |
| Cumulate.SliceFromSuffix | plot_data.py:255 | `points[k:]` is a suffix, of length len−k for k ≥ 0 and of length −k (capped) for negative k |
| Cumulate.RunningSums | plot_data.py:248-253 | the running total at index k is y[0]+…+y[k] |
| Cumulate.RunningSumsMonotone | plot_data.py:248-253 | with non-negative deltas the running totals never decrease |
| Cumulate.FilledFromZero | plot_data.py:247 | resampling from day 0 with gap filling gives x[i] == i |
| Cumulate.CumulatedByDay | plot_data.py:244-255 | the cumulated point at index k has day `from_day+k` and value the sum of the resampled y up to that day, and the days kept are exactly those ≥ `from_day` |
| Series.Capitalize | plot_data.py:19-20 | `str.capitalize` keeps the length |
| Series.CapitalizeIdempotent | plot_data.py:19-20 | the first character is upper-cased, the others lower-cased, and capitalizing twice equals once |
| Series.DefaultColorFirstRegion | plot_data.py:147-164 | the colour is the default iff no region name occurs, and region i's colour iff region i is the first region whose name occurs |
| Series.RegionOwnColor | plot_data.py:153-162 | each region's own name gets that region's colour |
| Series.LongerNotContained | plot_data.py:153 | a longer string is not contained |
| Series.FirstCharNotContained | plot_data.py:153 | a string whose first character never occurs is not contained |
| Series.RemainingStart | plot_data.py:42-52 | before the outer loop, what remains to be emitted is the whole resampled output |
| Series.RemainingEnd | plot_data.py:52 | after the outer loop nothing remains to be emitted |
| Series.FillGap | plot_data.py:58-64 | the gap loop appends the missing days with the carried value |
| Series.RoundedDaysAt | plot_data.py:53 | the bucket key of a point is its rounded day |
| Series.MaxRun | plot_data.py:67-71 | the MAX loop stops at the end of the day's run and keeps the first maximum of the run |
| Series.MinRun | plot_data.py:74-78 | the MIN loop stops at the end of the day's run and keeps the first minimum of the run |
| Series.LastRun | plot_data.py:81-84 | the LAST loop stops at the end of the day's run and keeps its last value |
| Series.SumRun | plot_data.py:88-92 | the averaging loop stops at the end of the day's run with the sum and count of the run |
| Series.MergeRun | plot_data.py:66-93 | one bucket's merge computes the bucket's aggregate and stops at the end of its run |
| Series.AppendBucket | plot_data.py:53-96 | one round of the outer loop moves one bucket (and its gap) from the remaining output to x and y |
| Series.AppendedBucket | plot_data.py:53-96 | the output appended by one round plus what remains after it equals what remained before it |
| Series.EmitAppend | plot_data.py:57-96 | the same for the bucket emission itself |
| Series.PointsOf | plot_data.py:184 | the point lists of the input series, in order |
| Series.PresentStep | plot_data.py:214-239 | one round of the inner list loop adds the list's j-th value when it is long enough |
| Series.MaxColumn | plot_data.py:211-218 | the MAX loop computes the maximum of the present values starting at 0.0 |
| Series.MinColumn | plot_data.py:220-226 | the MIN loop computes the minimum of the present values, or stays at infinity when none is present |
| Series.SumColumn | plot_data.py:228-239 | the SUM and AVG loops compute the sum and the count of the present values |
| Series.CombineColumn | plot_data.py:211-240 | the loop body for one index computes the combination of that index's present values |
| Series.PlotData.constructor | plot_data.py:13-20 | a new series holds the given points and category, the colour of its raw name, and its name capitalized when asked |
| Series.PlotData.GetX | plot_data.py:22-26 | the days of the points, in order |
| Series.PlotData.GetY | plot_data.py:131-137 | the values of the points, in order |
| Series.PlotData.GetFromDayPoints | plot_data.py:28-35 | the stable sort by day, from the first point with day ≥ `from_day` |
| Series.PlotData.GetFromDayX | plot_data.py:117-122 | the days of the filtered points |
| Series.PlotData.GetFromDayY | plot_data.py:124-129 | the values of the filtered points |
| Series.PlotData.GetFromDayAggregatedByDay | plot_data.py:37-98 | the loop computes the day-bucketed series whose properties the `Resample.AggregatedByDay…` lemmas state |
| Series.PlotData.GetFromDaySmoothed | plot_data.py:100-115 | the method computes the smoothed series, or the division by zero, whose properties the `Resample.Smoothed…` lemmas state |
| Series.PlotData.SmoothSeries | plot_data.py:105-115 | the smoothing loop over a resampled series |
| Series.PlotData.MultiplyAllY | plot_data.py:139-142 | every value is multiplied by `mult`; days, count, order, name, category and colour are unchanged |
| Series.PlotData.AggregateListsByIndex | plot_data.py:207-242 | the nested loops compute the index-wise combination |
| Series.PlotData.AggregatePlotDataByDay | plot_data.py:166-200 | a new AGGREGATE series named as given, uncapitalized, whose points are the combination of the inputs on the first series' day axis (none for no input) |
| Series.PlotData.SeriesDays | plot_data.py:177-181 | the day axis: the filtered days, or the gap-filled resample's days |
| Series.PlotData.SeriesValues | plot_data.py:185-189 | the value axis: the filtered values, or the gap-filled resample's values |
| Series.PlotData.CollectY | plot_data.py:184-189 | the loop collects the value axis of every series |
| Series.PlotData.PairUp | plot_data.py:197-198 | the pairing loop zips days and values |
| Series.PlotData.RunningTotals | plot_data.py:248-253 | the running-total loop pairs each day with the prefix sum up to it |
| Series.PlotData.CumulatePlotData | plot_data.py:244-255 | a new CUMULATED series whose points are the running totals of the gap-filled AVG resample from day 0, sliced at index `from_day` |
| TeamStanding.AveragedFromStep | team_standing_data.py:72-84 | one round of the outer loop emits the run's day with sum/count and continues after the run |
| TeamStanding.AveragedFromIsGroups | team_standing_data.py:71-84 | the averaging loop emits one point per group, with the group's key and the mean of its values |
| TeamStanding.SelectIsWithDay | team_standing_data.py:73-81 | the values selected for a day are the values of the points with that day, in order |
| TeamStanding.AveragedAscending | team_standing_data.py:67-86 | the averaged days strictly ascend and the output is no longer than the input |
| TeamStanding.AveragedCoversDays | team_standing_data.py:67-86 | every input day has an output point |
| TeamStanding.AveragedDaysOccur | team_standing_data.py:67-86 | every output day is an input day |
| TeamStanding.AveragedMeans | team_standing_data.py:67-86 | each output value is the mean of all input values of its day |
| TeamStanding.AveragedFromAscending | team_standing_data.py:72-84 | a strictly ascending list averages to itself |
| TeamStanding.AveragedIdempotent | team_standing_data.py:72-84 | averaging its own output changes nothing |
| TeamStanding.Reversed | team_standing_data.py:92-96 | reversal keeps the length and mirrors the indices |
| TeamStanding.TakenBackwardSuffix | team_standing_data.py:88-97 | the backward walk returns a reversed suffix of the stored points, all with day ≥ `from_day` |
| TeamStanding.AtOrAfterSnoc | team_standing_data.py:92-96 | the day filter of a list extended by one point is the filter extended by that point when it is kept |
| TeamStanding.TakenBackwardSorted | team_standing_data.py:92-96 | on sorted points the backward walk returns exactly the points with day ≥ `from_day`, latest first |
| TeamStanding.SeparatedIsStoredSuffix | team_standing_data.py:46-96 | on the re-averaged (strictly ascending) points the walk returns the stored points with day ≥ `from_day`, strictly descending by day |
| TeamStanding.TeamData.constructor | team_standing_data.py:33-38 | a new team holds its name, paths and colour and no datapoints |
| TeamStanding.TeamData.InitFromRows | team_standing_data.py:41-47 | the loaded rows are appended and the list re-averaged |
| TeamStanding.TeamData.AddDataPoint | team_standing_data.py:50-55 | outside backup mode the list becomes the average of old points plus the new one; in backup mode nothing changes; the invariant is kept |
| TeamStanding.TeamData.AddMultipleDataPoints | team_standing_data.py:58-64 | outside backup mode the list becomes the average of old points plus all new ones; in backup mode nothing changes; the invariant is kept |
| TeamStanding.TeamData.GetAveragedDatapoints | team_standing_data.py:67-86 | the nested loops compute the per-day average of the sorted points |
| TeamStanding.TeamData.AverageRuns | team_standing_data.py:71-86 | the outer loop emits one averaged point per run of equal days |
| TeamStanding.TeamData.SumSameDay | team_standing_data.py:73-81 | the inner loop stops at the end of the run with its sum and count |
| TeamStanding.TeamData.GetDatapointsSeparated | team_standing_data.py:88-97 | the days and values of the backward walk, in walk order |
| TeamStanding.TeamStandingData.constructor | team_standing_data.py:10-11 | a new standing has no teams |
| TeamStanding.TeamStandingData.AddTeam | team_standing_data.py:15-18 | the team is registered under its name, with its CSV paths and colour, and its rows averaged and ascending |
| TeamStanding.TeamStandingData.AddPointToTeam | team_standing_data.py:20-22 | the own team is ignored, an unknown team is a KeyError, otherwise that team alone gets the point; the team table, every name, path and colour stay as they were, and the team's ascending days are kept |
| History.Int | history_data.py:87 | `int()` truncates toward zero |
| History.Cell | history_data.py:50-78 | a cell found after an opener lies within the row, after the search start; a missing marker is NotFound |
| History.ParseRow | history_data.py:47-78 | a parsed record's operation is the classification of its operation text; a missing marker is NotFound |
| History.TableBody | history_data.py:38-42 | a missing table marker is NotFound |
| History.SplitTerminated | history_data.py:43-44 | the text is the `</tr>`-terminated pieces followed by the last piece |
| History.TerminatedStep | history_data.py:43-44 | one separator step of the previous statement |
| History.TerminatedCons | history_data.py:43-44 | terminating a list with one more piece in front prepends that piece and a separator |
| History.RowsAreTerminatedChunks | history_data.py:42-46 | the rows are the `</tr>`-terminated chunks of the body, none contains `</tr>`, and the text after the last `</tr>` is dropped |
| History.ParseRowsAll | history_data.py:46-80 | when no row fails, one record per row, each that row's parse |
| History.ParsedOperations | history_data.py:62-63 | each parsed record's operation is `get_history_operation_type` of its operation text |
| History.ByOperationFromEmpty | history_data.py:26-32 | from an empty map, the keys are exactly the operations present and each list holds that operation's records in order |
| History.ByOperationSizes | history_data.py:26-32 | the per-operation list sizes add up to the number of records |
| History.FromDateMembers | history_data.py:84-89 | the filter keeps exactly the records with int(day) ≥ `from_date` |
| History.FromDateOfOperation | history_data.py:91-98 | filtering by date and by operation commute |
| History.OfOperationFromDateMembers | history_data.py:91-98 | an operation's records from a date are exactly the records of that operation with int(day) ≥ `from_date` |
| History.OfOperationMembers | history_data.py:26-32 | an operation's list holds exactly the records of that operation |
| History.ByOperationFromDateOfRecords | history_data.py:91-98 | on a map built from the records, the lookup is the operation's records from the date, and [] for an absent operation |
| History.HistoryData.constructor | history_data.py:21-24 | a new history is empty |
| History.HistoryData.InitDataByOperation | history_data.py:26-32 | every record is appended to the list of its operation, the records unchanged |
| History.HistoryData.InitFromWebResponse | history_data.py:34-82 | None changes nothing; a missing table marker raises and changes nothing; otherwise the parsed rows are appended, and the grouping runs only when no row raised; on a fresh object a run without error leaves the grouping equal to the records grouped by operation |
| History.HistoryData.AppendRows | history_data.py:46-80 | the row loop appends the parsed records up to the first failing row |
| History.HistoryData.GetDataFromDate | history_data.py:84-89 | the records with int(day) ≥ `from_date`, in order |
| History.HistoryData.GetDataByOperationFromDate | history_data.py:91-98 | the operation's records with int(day) ≥ `from_date`, or [] when the operation has no list |
| History.HistoryData.GetPendingFactoryModification | history_data.py:101-103 | the factory schedulings from `current_day − 90` on |
| History.HistoryData.GetPendingWarehouseModification | history_data.py:106-108 | the warehouse schedulings from `current_day − 60` on |
| History.ParseRowsStep | history_data.py:46-80 | one round of the row loop appends the row's record or stops at its error |
| History.ParseRowsFailed | history_data.py:46-80 | once a row has failed the later rows change nothing |
| History.PendingFactoryMembers | history_data.py:101-103 | the pending factory modifications are exactly the SCHEDULE_FACTORY records with int(day) ≥ `current_day − 90` |
| History.PendingWarehouseMembers | history_data.py:106-108 | the pending warehouse modifications are exactly the SCHEDULE_WAREHOUSE records with int(day) ≥ `current_day − 60` |
| Factory.NatToString | factory_data.py:8-9 | a number is written as a non-empty string of digits |
| Factory.NatToStringRoundTrip | factory_data.py:8-9 | reading the written digits back gives the number |
| Factory.SummaryStartsWithLabel | factory_data.py:8-9 | the short summary starts with the shipping-method label |
| Plotter.EscapedUrlShape | plotter_main.py:113-114 | ':', '/' and '?' become '_', other characters are kept, ".html" is appended, and none of the three characters remains |
| Plotter.CheckListOnlyZero | plotter_main.py:598-607 | true iff the list is None or every element is 0 or '0' (so true for the empty list) |
| Plotter.RunStart | plotter_main.py:452-455 | the start of the scanned run lies between index 1 and one past the scan start |
| Plotter.PendingFromIsRun | plotter_main.py:452-455 | the backward scan sums the non-zero run ending at its start and stops at a zero or at index 1 |
| Plotter.PendingQuantityIsRun | plotter_main.py:451-455 | the pending quantity is the sum of the non-zero run ending at index len−2, never counting the first or last point |
| Plotter.PendingQuantityOf | plotter_main.py:451-455 | the backward loop computes the pending quantity |
| Plotter.Snapshot | plotter_main.py:447 | each warehouse series' name and points, in order |
| Plotter.Plots | plotter_main.py:441 | every series of every factory |
| Plotter.SnapshotAll | plotter_main.py:445 | the snapshot of every factory |
| Plotter.WarehousePendingPositive | plotter_main.py:457-458 | only warehouses with a positive pending quantity get an entry |
| Plotter.WarehousePendingOf | plotter_main.py:447-458 | the warehouse loop builds the pending-quantity map |
| Plotter.ByRegionSnoc | plotter_main.py:446 | one more entry is stored under the next region's name |
| Plotter.ByRegionEntries | plotter_main.py:446 | entry k is stored under region k, one key per entry |
| Plotter.PendingOrdersOf | plotter_main.py:441-460 | more factories than regions raise; otherwise one key per factory, named by region, holding its warehouses' pending quantities |
| Plotter.GetPendingOrdersPerRegion | plotter_main.py:441-460 | the same, over the series objects |
| Plotter.StartSearchFromIsLast | plotter_main.py:515-519 | the start is the largest index in [1, p] whose day is before the cutoff, or 0 when there is none |
| Plotter.RisesAreUpwardSteps | plotter_main.py:522-526 | every recorded shipment is an upward step after the start, arriving shipping-days later, with a positive quantity |
| Plotter.UpwardStepsAreRises | plotter_main.py:522-526 | every upward step after the start is recorded |
| Plotter.RegionShipmentsStep | plotter_main.py:506-526 | the series loop appends each series' shipments in order |
| Plotter.SeriesShipmentsOf | plotter_main.py:507-526 | the loops compute one series' shipments: none unless the name has "Mail" or "Truck", 1 shipping day for "Mail", else 7 |
| Plotter.RegionShipmentsOf | plotter_main.py:506-526 | the series loop computes a region's shipments |
| Plotter.PendingTransportOf | plotter_main.py:499-529 | more regions than names raise; otherwise one key per region holding its shipments |
| Plotter.GetPendingTransportPerRegion | plotter_main.py:499-529 | the same, over the series objects |
| Plotter.ConfigCellCases | plotter_main.py:371-384 | "---" for missing data, no configs or a zero order point; "IDX_ERR" iff there are too few configs; otherwise the config's short summary |
| Plotter.ConfigRows | plotter_main.py:367-385 | one row per factory: its region name followed by one cell per target region |
| Plotter.SkipForward | plotter_main.py:247 | the leading-space skip stays within the string |
| Plotter.SkipBackward | plotter_main.py:247 | the trailing-space skip stays within the range |
| Plotter.SkipForwardSpaces | plotter_main.py:247 | the skipped prefix is Python whitespace and the next character is not |
| Plotter.SkipBackwardSpaces | plotter_main.py:247 | the skipped suffix is Python whitespace and the character before it is not |
| Plotter.StripShape | plotter_main.py:247 | `strip()` is the slice between the leading and trailing Python whitespace (tab to carriage return, the information separators, space, next line, no-break space and the Unicode spaces and separators), and starts and ends with a character that is not whitespace |
| Plotter.SeriesLabel | plotter_main.py:247 | the label lookup raises iff the fragment has no quote |
| Plotter.MarkerMissing | plotter_main.py:247-252 | a failed search from the start means the marker does not occur in the fragment |
| Plotter.SeriesLabelFallback | plotter_main.py:247-249 | a non-empty name gives a non-empty label; when only whitespace precedes the first quote the label is the name, otherwise it is the slice before the quote that starts and ends with non-whitespace and has only whitespace around it |
| Plotter.Pairs | plotter_main.py:255-259 | floor(n/2) points from n tokens |
| Plotter.Flatten | plotter_main.py:258-259 | two numbers per point |
| Plotter.MapFloat | plotter_main.py:258-259 | each token converted in place |
| Plotter.PairsUseTokens | plotter_main.py:253-259 | the points are the tokens taken two by two, with a trailing odd token dropped |
| Plotter.PairTokens | plotter_main.py:255-259 | the pairing loop fills the points from the tokens |
| Plotter.PointText | plotter_main.py:252 | the extraction raises iff either point marker is missing; otherwise it is the text between the first `points:'` and the first `'},`, or empty when the closing marker comes first |
| Plotter.PointsOfText | plotter_main.py:252-259 | the points of a fragment raise iff either marker is missing; otherwise they are its point text split on ' ' and paired |
| Plotter.LineOfFragment | plotter_main.py:246-259 | one fragment raises iff it has no quote or lacks a point marker; otherwise it gives the label and the paired points |

## Left out

- Network access is not modelled: login, HTTP requests and retries, and the whole of `helper_get_data.py`. These are I/O.
- File I/O is not modelled: backup files, CSV reading and writing, and the text-file summaries. `TeamData` gets its rows as a parameter instead of a CSV path.
- argparse, matplotlib plotting, the endless refresh loop and Texttable drawing are left out. They are presentation only.
- The page-shaped scraping of cash, day, standings and factory configuration pages is left out, because it depends on the remote page layout. In `get_plot_data`, one fragment is modelled (its label, its point text and the pairing of its tokens), but not the search for `lines:[`, the split into fragments, the `no plot:` check or the building of `PlotData` objects.
- Python's `float()` and `int()` on text are a function parameter `toFloat`, which is total. The ValueError of malformed numbers is not modelled.
- Floating point is modelled as exact reals, so rounding error and `inf`/`nan` are not modelled. Python `round` is modelled as round-half-to-even on reals.
- `config.lastXDays` and `config.load_from_backup` are parameters, and `config.disable_logging` only affects file output. `config.py` is not part of this model.
- The mutable global `values.latest_backup_time` is left out, because it is a clock value.
- `PlotData.__str__` is left out. It is display text only.
- `Series.Capitalize`: only ASCII letters are case-mapped, not Unicode.
- `Series.PlotData.MultiplyAllY`: points are values, so the aliasing of the inner `[day, value]` lists is not captured. Neither is the TypeError that the source raises on tuple points, such as those built by `aggregate_plot_data_by_day`.
- `Series.PlotData.GetFromDaySmoothed`: requires `n >= 0`. A negative window would give Python's negative-slice behaviour, and callers pass a positive count.
- `Series.PlotData.AggregateListsByIndex`: requires at least one list. The source raises IndexError on `data_list[0]` for an empty list, and its only caller never passes one.
- `Cumulate.CumulatedByDay`: stated for `from_day >= 0` only. For a negative `from_day`, `Cumulate.SliceFromSuffix` states the Python negative-slice result.
- `Plotter.PendingQuantityOf`: the unused `point_tmp` slice is left out.
- The short summary of a shipping configuration is modelled as its format string. Only its leading label and the digit round trip of its numbers are proved about it.
