# Foot-pressure dashboard: history analytics and settings, in Dafny

This project models the computational core of a foot-pressure monitoring
dashboard (a Next.js application) and proves properties of the model.

The **history side** serves a synthetic pressure history for three regions
(heel, left ankle, right ankle) and draws it on a chart:

- The API route seeds a `mulberry32` generator with a 32-bit string hash of
  the query and walks a run-length-encoded heel waveform, cycling it.
  - The ankles read 0 while the heel is loaded.
  - While the heel is at 0, the ankles draw two random values each sample.
- `computeStats` reduces the series to averages, first-occurring maxima,
  time above threshold and high-pressure events. Events are maximal runs
  above threshold, scanned region by region.
- The chart first applies a centred rolling average, then downsamples long
  series with LTTB (Largest-Triangle-Three-Buckets). It shades the maximal
  runs in which any region is high.
- The controls bar exports CSV. The stats cards and events table format
  durations and pick the overall peak and the longest event.

The **settings side** validates a settings record against a schema and
keeps it in a store:

- The store offers set, patch (a shallow merge), reset, JSON import and
  JSON export.
- The settings panel previews an import as a diff and switches between
  sections.
- The calibration wizard counts its steps.
- The alerts form edits quiet hours.
- The device form edits the sampling interval in seconds and stores it in
  milliseconds.

State that the source changes in place is modelled as follows:

- Loops become methods, proved against specification functions:
  - `hashString`, `generateMockData` and the `computeStats` scan;
  - the rolling average, LTTB and the chart's span detection;
  - the table decompression and the import diff.
- Stateful objects become classes with `modifies` clauses: the PRNG
  closure, the settings store, the panel's React state, the wizard step,
  the quiet-hours field and the device form.

Timestamps are integer milliseconds. Pressures and settings numbers are
reals. Strings are `seq<char>`; a string's length and `charCodeAt` are
counted in UTF-16 code units (`JsText.CodeUnits`).

## Model

| member | source | states |
|---|---|---|
| Pressure.Set | app/api/history/route.ts:122-131 | writing one region's entry of a per-region record changes that entry and leaves the other two regions as they were |
| Pressure.Values | app/api/history/route.ts:123 | `data.map(sample => sample[region])`: one value per sample, in sample order, each the region's channel of that sample |
| Rounding.MathRound | app/api/history/route.ts:124 | `Math.round` gives the integer n with n - 0.5 <= x < n + 0.5, so halves round up |
| Rounding.Round1 | lib/history/rollingAvg.ts:19-21 | `Math.round(x*10)/10` has one decimal and lies within [x - 0.05, x + 0.05), the upper bound strict |
| Rounding.Round1Fixes | lib/history/rollingAvg.ts:19-21 | a value that already has one decimal is left unchanged by the rounding |
| Rounding.Round1Monotone | lib/history/rollingAvg.ts:19-21 | the one-decimal rounding preserves order |
| Rounding.Round1Within | lib/history/rollingAvg.ts:19-21 | rounding a value between two one-decimal bounds stays between them |
| Runs.RunEnd | app/api/history/route.ts:150-153 | the end of the run starting at i is the first unflagged index at or after i (or n), and every index in between is flagged |
| Runs.RunsFrom | app/api/history/route.ts:141-176 | every run found from index i is non-empty and lies within [i, n) |
| Runs.RunsFromMaximal | app/api/history/route.ts:141-176 | the runs found are maximal: flagged throughout, bounded by an unflagged index or an end of the series; consecutive runs are separated by at least one unflagged index |
| Runs.RunsFromCount | app/api/history/route.ts:149-153 | the run lengths add up to the number of flagged indices |
| Runs.RunsFromCover | app/api/history/route.ts:141-165 | every flagged index lies inside one of the runs |
| Runs.NoFlagsNoRuns | app/api/history/route.ts:141-176 | a series with no flagged index has no runs |
| Runs.RunsFromLast | app/api/history/route.ts:167-176 | when the last index is flagged, the last run is still open at the end and closes at n |
| Waveform.Repeat | lib/history/heelPressureData.ts:36-41 | a run expands to exactly `count` copies of its value |
| Waveform.Numbered | lib/history/heelPressureData.ts:34-38 | decoded entry k carries `relativeTime` k + 1 (consecutive from 1) and the k-th expanded value |
| Waveform.ExpandLength | lib/history/heelPressureData.ts:35-41 | the decoded table is as long as the sum of the run counts |
| Waveform.ExpandAppend | lib/history/heelPressureData.ts:35-41 | decoding two tables one after the other is decoding their concatenation: table order is kept |
| Waveform.ExpandWithin | lib/history/heelPressureData.ts:35-41 | every decoded value lies within bounds that every run's value respects |
| Waveform.ExpandContains | lib/history/heelPressureData.ts:35-41 | the value of every run with a positive count occurs in the decoded table |
| Waveform.ExpandHead | lib/history/heelPressureData.ts:35-41 | the first `count` decoded values are the first run's value |
| Waveform.ExpandTail | lib/history/heelPressureData.ts:35-41 | the last `count` decoded values are the last run's value |
| Waveform.Decompress | lib/history/heelPressureData.ts:33-42 | the nested decompression loop with its running `currentTime` builds exactly the numbered expansion of the table |
| HeelPressureTable.HeelPressureDataLength | lib/history/heelPressureData.ts:8-28 | the heel table's run counts add up to 3356, and the decoded table has 3356 entries |
| HeelPressureTable.HeelPressureDataWithin | lib/history/heelPressureData.ts:9-27 | every heel value lies in 0..199 |
| HeelPressureTable.HeelPeakReached | lib/history/heelPressureData.ts:17 | the value 199 occurs, so 199 is the table's maximum |
| HeelPressureTable.HeelAboveThresholdSomewhere | lib/history/heelPressureData.ts:4-14 | some heel value exceeds `heelPressureThreshold` 168.945515, so heel events can occur |
| HeelPressureTable.HeelLeadingZeros | lib/history/heelPressureData.ts:9 | the first 701 heel values are 0 |
| HeelPressureTable.HeelTrailingZeros | lib/history/heelPressureData.ts:27 | the last 900 heel values are 0 |
| AnklePressureTable.AnklePressureDataLength | lib/history/anklePressureData.ts:8-26 | the ankle table's run counts add up to 2360, and the decoded table has 2360 entries |
| AnklePressureTable.AnklePressureDataWithin | lib/history/anklePressureData.ts:10-25 | every ankle value lies in 0..370 |
| AnklePressureTable.AnklePeakReached | lib/history/anklePressureData.ts:25 | the value 370 occurs, so 370 is the table's maximum |
| AnklePressureTable.AnkleBelowThreshold | lib/history/anklePressureData.ts:4-25 | every ankle value is below `anklePressureThreshold` 643, so no entry is high under it |
| AnklePressureTable.AnkleLeadingZeros | lib/history/anklePressureData.ts:10 | the first 800 ankle values are 0 |
| ChartThresholds.GetThreshold | lib/history/thresholds.ts:1-6 | the threshold is 300 exactly for the heel and 350 exactly for either ankle, and nothing else |
| ChartThresholds.ThresholdsDisagreeOnHeel | lib/history/thresholds.ts:1-5 | the chart and the statistics engine agree on the ankle thresholds. The chart's heel threshold (300) is above the engine's (168.945515), so a 200 kPa heel reading is a reported event but is not shaded |
| HistoryPrng.ToInt32 | app/api/history/route.ts:52-53 | reduction to a signed 32-bit integer gives a value in [-2^31, 2^31) congruent to its input modulo 2^32 |
| HistoryPrng.Abs | app/api/history/route.ts:55 | `Math.abs` returns the value or its negation, and is non-negative |
| HistoryPrng.HashStep | app/api/history/route.ts:52-53 | one loop step `(hash << 5) - hash + char` on a 32-bit hash equals the 32-bit reduction of h*31 + c over the unreduced fold |
| HistoryPrng.ComputeHash | app/api/history/route.ts:48-56 | the hashing loop returns \|int32(fold of h*31 + c over the UTF-16 code units)\|, which is at most 2^31 |
| HistoryPrng.HashOfDefaultQuery | app/api/history/route.ts:66 | the seed of the default query "3d-5m" is 50123668 |
| HistoryPrng.Xor32 | app/api/history/route.ts:42-44 | `^` on two 32-bit operands stays a 32-bit value |
| HistoryPrng.Or32 | app/api/history/route.ts:42-43 | `\|` on two 32-bit operands stays a 32-bit value |
| HistoryPrng.Imul | app/api/history/route.ts:42-43 | `Math.imul`, read unsigned, is a 32-bit value |
| HistoryPrng.ImulIsProduct | app/api/history/route.ts:42-43 | `Math.imul`, read unsigned, is the product modulo 2^32 |
| HistoryPrng.Mix | app/api/history/route.ts:42-44 | the mixing of a state yields an unsigned 32-bit value |
| HistoryPrng.Output | app/api/history/route.ts:44 | dividing the mixed value by 2^32 gives a number in [0, 1) |
| HistoryPrng.Draw | app/api/history/route.ts:39-46 | every draw of the generator lies in [0, 1) |
| HistoryPrng.StateAfterIs | app/api/history/route.ts:41 | after k + 1 draws the state is seed + (k + 1) * 0x6d2b79f5 |
| HistoryPrng.DrawAt | app/api/history/route.ts:39-46 | draw k is the output of the state after k + 1 increments: it depends only on the seed and the number of earlier draws |
| HistoryPrng.Mulberry32.constructor | app/api/history/route.ts:39-40 | a fresh generator holds the seed and has made no draw |
| HistoryPrng.Mulberry32.Next | app/api/history/route.ts:40-45 | a call returns draw number `draws` of the seed's stream, in [0, 1), and advances the count by one |
| MockData.PeriodMs | app/api/history/route.ts:60-61 | "3d" gives 3 days and "7d" 7 days, each exactly for that string; any other period string gets 30 days |
| MockData.IntervalMs | app/api/history/route.ts:63 | "1m" gives one minute and "5m" five minutes, each exactly for that string; any other interval string gets one hour |
| MockData.CeilDiv | app/api/history/route.ts:70 | `Math.ceil(a / b)`: the least q with q * b >= a |
| MockData.ZeroHeelsBefore | app/api/history/route.ts:88-95 | the number of zero-heel samples before index i is at most i |
| MockData.Stream | app/api/history/route.ts:67 | the generator's draws, indexed by position, all lie in [0, 1) |
| MockData.History | app/api/history/route.ts:75-103 | the specified series of n samples has length n |
| MockData.HistoryAt | app/api/history/route.ts:75-102 | sample i of the series is the sample specified for index i |
| MockData.GenerateMockData | app/api/history/route.ts:58-106 | the generation loop returns ceil(periodMs / intervalMs) samples. They equal the specified series drawn from the stream seeded with the hash of "period-interval" |
| MockData.NextSample | app/api/history/route.ts:76-102 | one loop pass builds sample i. It draws from the generator exactly twice when the heel is 0 and not at all otherwise, so 2 * (zero heels so far) draws have been made |
| MockData.LyingSample | app/api/history/route.ts:88-95 | a zero-heel sample uses draws 2z (left ankle) and 2z + 1 (right ankle), where z counts the earlier zero-heel samples |
| MockData.StandingSample | app/api/history/route.ts:79-102 | a loaded-heel sample carries the table's heel value unrounded, reads 0 on both ankles and consumes no draw |
| MockData.SampleCounts | app/api/history/route.ts:60-70 | the nine period/interval pairs give 4320, 864, 72, 10080, 2016, 168, 43200, 8640 and 720 samples |
| MockData.SampleCountRange | app/api/history/route.ts:60-70 | any period and interval strings give between 72 and 43200 samples |
| MockData.SampleTimes | app/api/history/route.ts:76 | sample 0 is at now - periodMs. Each next sample is exactly intervalMs later, and every sample lies in [now - periodMs, now) |
| MockData.SampleAtTime | app/api/history/route.ts:76-98 | the timestamp of sample i is now - periodMs + i * intervalMs |
| MockData.GeneratedChronological | app/api/history/route.ts:75-76 | generated timestamps strictly increase |
| MockData.HeelCycles | app/api/history/route.ts:73-80 | the heel value of sample i is the table entry at i mod 3356: it repeats every 3356 samples and lies in 0..199 |
| MockData.HistoryStartsLying | app/api/history/route.ts:79-80 | the first 701 samples have a zero heel |
| MockData.StandingUnloadsAnkles | app/api/history/route.ts:85-95 | a sample with a non-zero heel has positive heel and both ankles at 0 |
| MockData.LyingLoadsAnkles | app/api/history/route.ts:90-94 | with a time-of-day factor in [0.4, 1.2], a zero-heel sample has left ankle in [219.5, 308.5] and right ankle in [207.5, 292.5] |
| MockData.AnkleRanges | app/api/history/route.ts:93-94 | the ankle formulas with a factor in [0.4, 1.2] and a draw in [0, 1) give left in [219.5, 308.5] and right in [207.5, 292.5] |
| MockData.DrawsNotShared | app/api/history/route.ts:88-95 | two different zero-heel samples use disjoint draws |
| HistoryRoute.DefaultInterval | app/api/history/route.ts:190 | the default interval is "5m" exactly for "3d" and "7d", and "1h" otherwise |
| HistoryRoute.Resolve | app/api/history/route.ts:185-191 | a missing or empty parameter takes its default: period "3d", the period's default interval, patient "demo". A non-empty parameter is kept as given |
| HistoryRoute.DefaultSampleCounts | app/api/history/route.ts:190-194 | with the default interval, "3d" serves 864 samples, "7d" 2016, and every other period 720 |
| HistoryRoute.Get | app/api/history/route.ts:182-210 | the handler always answers with the history: meta is the resolved query, data is the seeded series of ceil(periodMs / intervalMs) samples, stats are the statistics of that data. The catch branch is unreachable |
| HistoryRoute.GeneratedAnklesNeverHigh | app/api/history/route.ts:85-95 | with a time-of-day factor in [0.4, 1.2], the served series has no ankle events and no time above the 350 kPa ankle threshold |
| HistoryRoute.AnklesLowAt | app/api/history/route.ts:93-94 | no generated sample has an ankle above 350 kPa when the factor lies in [0.4, 1.2] |
| HistoryRoute.AnkleQuiet | app/api/history/route.ts:130-165 | a region never above its threshold has no events and no high count |
| HistoryStats.MaxOf | app/api/history/route.ts:126 | `Math.max(...values)` is an element of the values and at least every element |
| HistoryStats.FirstIndex | app/api/history/route.ts:127 | `find` yields the first index holding the value |
| HistoryStats.CountAbove | app/api/history/route.ts:130 | the filter count is at most the number of values |
| HistoryStats.MaxRecordOf | app/api/history/route.ts:126-128 | the max record holds the region's maximum and the timestamp of the first sample attaining it |
| HistoryStats.HighFlags | app/api/history/route.ts:142 | one flag per sample, true exactly when the sample is strictly above the region's threshold |
| HistoryStats.PeakIsMax | app/api/history/route.ts:148-152 | an event's running peak is the maximum of the region's values over the run and is attained in it |
| HistoryStats.Stats | app/api/history/route.ts:108-180 | the statistics fail exactly on an empty series, where `find` returns undefined and `.ts` throws. Otherwise they carry the period and sampleCount = n |
| HistoryStats.FilledAll | app/api/history/route.ts:122-132 | the per-region loop fills avg, max and timeInHighPct for all three regions with their per-region values |
| HistoryStats.ScanLow | app/api/history/route.ts:141-165 | a low sample outside an event leaves the scan state as it was |
| HistoryStats.ScanOpen | app/api/history/route.ts:144-149 | a high sample outside an event opens one at that sample, with its value as peak and one sample |
| HistoryStats.ScanExtend | app/api/history/route.ts:150-153 | a high sample inside an event raises the peak to the running maximum and counts the sample |
| HistoryStats.ScanClose | app/api/history/route.ts:154-163 | a low sample inside an event closes it at the previous sample's timestamp and appends it |
| HistoryStats.ScanEnd | app/api/history/route.ts:167-176 | after the last sample, an open event closes at the last timestamp, and the events found are the region's maximal runs |
| HistoryStats.ScanSample | app/api/history/route.ts:141-165 | one `forEach` step keeps the scan invariant: closed events equal the maximal runs before the current index |
| HistoryStats.DetectEvents | app/api/history/route.ts:135-177 | the region's event scan returns exactly the events of its maximal runs above threshold, in order |
| HistoryStats.SummariseRegion | app/api/history/route.ts:122-132 | for a non-empty series, the region's average, max record and high percentage; nothing for an empty one |
| HistoryStats.SummariseAll | app/api/history/route.ts:122-132 | the region loop yields all three per-region records exactly when the series is non-empty |
| HistoryStats.DetectAll | app/api/history/route.ts:135-177 | the event loop yields the events of heel, then left ankle, then right ankle |
| HistoryStats.ComputeStats | app/api/history/route.ts:108-180 | the imperative computation equals the statistics specification, including the failure on an empty series |
| HistoryStats.AverageAtMostMax | app/api/history/route.ts:124-126 | the rounded average never exceeds the rounded maximum |
| HistoryStats.AverageWithin | app/api/history/route.ts:124 | the rounded average of values in [lo, hi] lies in [Round1(lo), Round1(hi)] |
| HistoryStats.AverageNonNegative | app/api/history/route.ts:124 | the average of non-negative values is non-negative |
| HistoryStats.AverageOfConstant | app/api/history/route.ts:124 | the average of a constant one-decimal series is that constant |
| HistoryStats.HighPctRange | app/api/history/route.ts:130-131 | the time-in-high percentage lies in [0, 100] |
| HistoryStats.CountAboveFlags | app/api/history/route.ts:130-142 | the strict `>` filter count equals the number of high flags |
| HistoryStats.EventSamplesAreHighCount | app/api/history/route.ts:149-153 | per region, the events' `samples` add up to the number of samples above threshold |
| HistoryStats.RegionEventIsRun | app/api/history/route.ts:141-176 | each event is a maximal run above threshold: start and end are its first and last timestamps, peak is its maximum, samples is its length >= 1 |
| HistoryStats.RegionEventsChronological | app/api/history/route.ts:141-176 | on a chronological series a region's events have start <= end and are disjoint and in time order |
| HistoryStats.EventOrdered | app/api/history/route.ts:141-176 | each event starts no later than it ends |
| HistoryStats.EventsApart | app/api/history/route.ts:154-163 | consecutive events of a region are strictly apart in time |
| HistoryStats.HighSampleInEvent | app/api/history/route.ts:141-165 | on a chronological series, every sample above threshold falls within the time span of one of the region's events |
| HistoryStats.EventsGrouped | app/api/history/route.ts:135 | the merged event list is heel events, then left-ankle events, then right-ankle events |
| RollingAverage.WindowBounds | lib/history/rollingAvg.ts:9-11 | the window [max(0, i - w/2), min(n, i + ceil(w/2))) contains i, has at most w samples, and exactly w away from the edges |
| RollingAverage.Window | lib/history/rollingAvg.ts:11 | the window slice is never empty |
| RollingAverage.Smoothed | lib/history/rollingAvg.ts:3-26 | the smoothed series has the input's length and timestamps, and is the input itself when the window is at most 1 |
| RollingAverage.SmoothPoint | lib/history/rollingAvg.ts:9-22 | one loop pass computes the specified smoothed sample for index i |
| RollingAverage.ApplyRollingAverage | lib/history/rollingAvg.ts:3-26 | the loop returns exactly the specified smoothed series |
| RollingAverage.SmoothedChronological | lib/history/rollingAvg.ts:18 | smoothing keeps a chronological series chronological |
| RollingAverage.ChannelsIndependent | lib/history/rollingAvg.ts:13-15 | each channel is smoothed on its own: equal inputs on a channel give equal outputs on it |
| RollingAverage.SmoothConstant | lib/history/rollingAvg.ts:13-21 | a constant series whose values have one decimal is returned unchanged |
| RollingAverage.SmoothWithinWindow | lib/history/rollingAvg.ts:13-21 | each smoothed value lies between the rounded minimum and maximum bounds of its window |
| RollingAverage.SmoothNonNegative | lib/history/rollingAvg.ts:13-21 | non-negative inputs give non-negative smoothed values |
| Downsample.BucketEnds | lib/history/downsample.ts:19-32 | the first bucket starts at index 1 and the last pick bucket ends at n - 1, so the buckets cover exactly the points between the first and the last |
| Downsample.BucketsPartition | lib/history/downsample.ts:31-32 | every bucket [floor(i*bs)+1, floor((i+1)*bs)+1) is non-empty and lies within [1, n - 1); the bucket after it, averaged for the centroid, does too, except after the last bucket |
| Downsample.LastRangeInBounds | lib/history/downsample.ts:19-25 | the last centroid range stays within the data exactly when n - 2 < 2(T - 2), i.e. when the bucket size is below 2 |
| Downsample.Best | lib/history/downsample.ts:38-52 | the chosen point lies in its bucket |
| Downsample.BestIsFirstMax | lib/history/downsample.ts:38-52 | the chosen point has the largest triangle area in its bucket, and every earlier point has a strictly smaller area (ties keep the earliest) |
| Downsample.Chosen | lib/history/downsample.ts:31-52 | the pick for bucket i lies in bucket i and is neither the first nor the last point |
| Downsample.Picks | lib/history/downsample.ts:15-56 | after k buckets there are k picks, all valid indices |
| Downsample.PicksInBuckets | lib/history/downsample.ts:31-55 | pick j lies in bucket j |
| Downsample.PicksInside | lib/history/downsample.ts:31-55 | no pick is the first or the last point |
| Downsample.Kept | lib/history/downsample.ts:11-59 | the kept indices are T: index 0, then the T - 2 bucket picks, then n - 1 |
| Downsample.Centroid | lib/history/downsample.ts:17-28 | the accumulation loop gives the mean timestamp and the mean three-channel pressure over the next bucket |
| Downsample.PickInBucket | lib/history/downsample.ts:38-52 | the area loop returns the first point of largest area |
| Downsample.PickBucket | lib/history/downsample.ts:16-55 | one outer pass, with the centroid range clamped to n, returns the specified pick |
| Downsample.PickBucketAsWritten | lib/history/downsample.ts:16-55 | one outer pass as written fails (reads past the end) exactly on the last bucket when n - 2 >= 2(T - 2). Otherwise it returns the specified pick |
| Downsample.DownsampleLttb | lib/history/downsample.ts:4-62 | the corrected method returns the specified downsampling: the input when n <= T or T < 3, otherwise the T kept points |
| Downsample.DownsampleLttbAsWritten | lib/history/downsample.ts:4-62 | the function as written returns the input when n <= T or T < 3. Otherwise it throws exactly when n - 2 >= 2(T - 2), and gives the corrected result when it does not |
| Downsample.DownsampledShape | lib/history/downsample.ts:11-59 | for 2 < T < n the output has T points: the first point, one point per bucket, and the last point |
| Downsample.PicksIncreasing | lib/history/downsample.ts:31-55 | the picks strictly increase |
| Downsample.KeptIncreasing | lib/history/downsample.ts:11-59 | the kept indices strictly increase, so the output is an order-preserving subsequence |
| Downsample.ClipIsIdle | lib/history/downsample.ts:19-25 | whenever the source stays in bounds, clamping the centroid range changes nothing |
| Downsample.ReadPastEndExample | lib/history/downsample.ts:20 | for 7 points down to 4, the last centroid range ends at 8, beyond the 7 points |
| Downsample.ChartPathThrows | lib/history/downsample.ts:19-25 | downsampling more than 8000 points to 1500, as the chart does, always reads past the end |
| Downsample.DownsampledChronological | lib/history/downsample.ts:4-62 | downsampling keeps a chronological series chronological |
| HistoryChart.Points | components/history/HistoryChart.tsx:54-64 | the mapping keeps length and order, point i being sample i converted |
| HistoryChart.AnyHighThresholds | components/history/HistoryChart.tsx:60-63 | `anyHigh` holds exactly when heel > 300 or either ankle > 350, i.e. when some region exceeds its chart threshold |
| HistoryChart.ToPointKeeps | components/history/HistoryChart.tsx:54-59 | a point keeps the sample's timestamp and three channel values |
| HistoryChart.ProcessedEmpty | components/history/HistoryChart.tsx:43 | the processed series is empty exactly when the data is |
| HistoryChart.ShortSeriesKept | components/history/HistoryChart.tsx:46-54 | up to 8000 samples, every (smoothed when smoothing > 0) sample is shown, in order |
| HistoryChart.LongSeriesDownsampled | components/history/HistoryChart.tsx:46-51 | above 8000 samples, smoothing comes first, then downsampling to 1500 points keeping the first and last |
| HistoryChart.ProcessedChronological | components/history/HistoryChart.tsx:42-65 | chronological data gives points with strictly increasing timestamps |
| HistoryChart.ProcessedAsWrittenThrows | components/history/HistoryChart.tsx:49-50 | as written, processing throws for every series above 8000 samples and agrees with the corrected pipeline otherwise |
| HistoryChart.Flags | components/history/HistoryChart.tsx:73 | one flag per point, its `anyHigh` |
| HistoryChart.CloseSpan | components/history/HistoryChart.tsx:76-79 | a point that is not high, reached inside a span, closes the span at the previous point's time |
| HistoryChart.CloseAtEnd | components/history/HistoryChart.tsx:83-85 | a span still open after the last point closes at the last point's time and completes the specified spans |
| HistoryChart.HighSpans | components/history/HistoryChart.tsx:67-88 | the `forEach` scan returns exactly the time spans of the maximal runs of high points |
| HistoryChart.HighSpansAreRuns | components/history/HistoryChart.tsx:72-85 | each span starts and ends at the first and last point of a run of high points, bounded on both sides by a point that is not high or an end |
| HistoryChart.HighSpansOrdered | components/history/HistoryChart.tsx:72-85 | on chronological points, each span has start <= end and consecutive spans are disjoint and in order |
| HistoryChart.HighPointsShaded | components/history/HistoryChart.tsx:72-85 | every high point falls within a span |
| HistoryChart.OpenSpanClosesAtLast | components/history/HistoryChart.tsx:83-85 | when the last point is high, the last span ends at the last point's time |
| HistoryChart.NoHighNoSpans | components/history/HistoryChart.tsx:67-88 | no high point, no span |
| ControlsBar.Lines | components/history/ControlsBar.tsx:61-65 | n + 1 lines: the header, then one row per exported sample in order |
| ControlsBar.HeaderLine | components/history/ControlsBar.tsx:61-63 | the header line is `timestamp,heel,leftAnkle,rightAnkle` |
| ControlsBar.ExportNeedsData | components/history/ControlsBar.tsx:56-65 | nothing is exported without data; an empty series exports the header alone |
| ControlsBar.ExportedSeries | components/history/ControlsBar.tsx:59 | exported rows keep length and timestamps. They are the rolling average when smoothing > 1, and the raw samples when it is at most 1 |
| ControlsBar.RowFields | components/history/ControlsBar.tsx:64 | a row splits back into its four fields: timestamp, heel, left ankle, right ankle |
| ControlsBar.CsvLines | components/history/ControlsBar.tsx:61-65 | the CSV splits back into n + 1 lines, the header and then each sample's row, with no trailing newline |
| ControlsBar.FileNameSmoothing | components/history/ControlsBar.tsx:71 | the file name tells whether smoothing was on and, if so, which window |
| ControlsBar.SmoothingSelectRoundTrip | components/history/ControlsBar.tsx:156-157 | a window written with `toString` and read back with `parseInt` is the same window |
| ControlsBar.IntervalSelectRoundTrip | components/history/ControlsBar.tsx:131-133 | `interval \|\| "auto"` and back gives the interval again, except that "" and "auto" come back as undefined; a non-empty option value survives the reverse trip |
| StatsCards.OverallPeakIsFirstMax | components/history/StatsCards.tsx:34-41 | the peak fold picks the max record of the first region (heel, left ankle, right ankle order) with the largest value. The region search finds that same region |
| StatsCards.LongestUpToIsFirstMax | components/history/StatsCards.tsx:128-131 | the reduce over a prefix returns its first event of largest end - start |
| StatsCards.LongestIsFirstMax | components/history/StatsCards.tsx:128-137 | the longest event is the first event of largest end - start |
| StatsCards.LongestLabelReads | components/history/StatsCards.tsx:124-138 | a "Longest" label appears exactly when there are events, and reads back as the longest event's rounded minutes |
| StatsCards.BandIntervals | components/history/StatsCards.tsx:99-105 | above 10 % is destructive, above 5 % up to 10 % is orange, 5 % or less is muted |
| StatsCards.BandMonotone | components/history/StatsCards.tsx:99-105 | a higher percentage never gets a milder band |
| StatsCards.RegionLabelsDistinct | components/history/StatsCards.tsx:12-16 | the label map is total and tells the three regions apart |
| DurationText.MinutesNearest | components/history/StatsCards.tsx:22 | the rounded minutes m satisfy 60000m - 30000 <= ms < 60000m + 30000 |
| DurationText.ReadMinutesLabel | components/history/StatsCards.tsx:24-25 | "{m}m" reads back as m minutes |
| DurationText.ReadHoursLabel | components/history/StatsCards.tsx:29 | "{h}h" reads back as 60h minutes |
| DurationText.ReadHoursMinutesLabel | components/history/StatsCards.tsx:29 | "{h}h {r}m" reads back as 60h + r minutes |
| DurationText.MinutesLabelReads | components/history/StatsCards.tsx:24-30 | the minutes label reads back as the minutes it was made from |
| DurationText.FormatDurationReads | components/history/EventsTable.tsx:27-40 | a formatted duration reads back as the rounded minutes of the duration; the same formatter is in StatsCards.tsx:18-31 |
| DurationText.FormatDurationHours | components/history/StatsCards.tsx:26-30 | when the rounded minutes are 60h + r with h >= 1 and 0 <= r < 60, the text is "{h}h {r}m", or "{h}h" when r = 0 |
| EventsTable.RowShowsEvent | components/history/EventsTable.tsx:95-117 | a row shows the event's region label and colour, peak, formatted start and end, a duration reading back as its minutes, and its samples |
| EventsTable.ViewRows | components/history/EventsTable.tsx:51-120 | no events shows the empty state. Otherwise the badge counts the events and there is one row per event, in the given order |
| EventsTable.LabelsAndColoursDistinct | components/history/EventsTable.tsx:15-25 | the label and colour maps are total and tell the three regions apart |
| JsText.IntString | components/history/StatsCards.tsx:25 | a number in a template literal is non-empty text starting with '-' exactly when negative |
| JsText.DecimalString | components/history/StatsCards.tsx:25 | the digits of a natural number are non-empty and all digits, with no leading zero beyond one digit |
| JsText.ParseIntString | components/settings/sections/Device.tsx:89 | `Number.parseInt` reads back every integer's text |
| JsText.ParseIntEmpty | components/settings/sections/Device.tsx:89 | `parseInt` of "" and of "abc" is NaN |
| JsText.ParseIntStopsAtPoint | components/settings/sections/Device.tsx:89 | `parseInt("12.5")` stops at the point and gives 12 |
| JsText.ParseIntHex | components/settings/sections/Device.tsx:89 | `parseInt` without a radix reads a 0x prefix as hexadecimal |
| JsText.SplitJoin | components/history/ControlsBar.tsx:62-65 | splitting a join of separator-free parts gives the parts back |
| JsText.JoinSplit | components/history/ControlsBar.tsx:62-65 | joining the split pieces gives the text back |
| JsText.JoinWithout | components/history/ControlsBar.tsx:62-65 | a join adds no character other than the separator |
| JsText.CodeUnits | app/api/history/route.ts:50-51 | `charCodeAt` yields UTF-16 code units (each below 0x10000), at least one per character |
| JsText.CodeUnitsRoundTrip | lib/settings/schema.ts:5 | the UTF-16 encoding of a string decodes back to it |
| JsText.CodeUnitsAscii | lib/settings/schema.ts:5 | an ASCII string has one code unit per character, its character code |
| SettingsSchema.QuietHoursIssues | lib/settings/schema.ts:21-26 | no issue exactly when quiet hours are null or both ends match `^\d{2}:\d{2}$`; a missing key is an issue |
| SettingsSchema.ProfileIssues | lib/settings/schema.ts:5 | no issue exactly when the display name has 1 to 50 UTF-16 code units |
| SettingsSchema.AlertsIssues | lib/settings/schema.ts:12-26 | no issue exactly when both thresholds lie in [100, 600], `repeatEveryMin` lies in [0, 60] and the quiet hours pass |
| SettingsSchema.VisualizationIssues | lib/settings/schema.ts:29-32 | no issue exactly when the palette is one of the four and the smoothing window is 0, 5 or 10 |
| SettingsSchema.DeviceIssues | lib/settings/schema.ts:37 | no issue exactly when `sampleIntervalMs` lies in [1000, 60000] |
| SettingsSchema.CalibrationIssues | lib/settings/schema.ts:40-44 | no issue exactly when heelEnd and ankleStart lie in [0, 1], lateralGap in [0, 0.5] and zeroOffsetKPa in [-100, 100] |
| SettingsSchema.HistoryIssues | lib/settings/schema.ts:47-49 | no issue exactly when retentionDays is 90 and the export format is csv or json |
| SettingsSchema.AccessibilityIssues | lib/settings/schema.ts:54-57 | no issue exactly when the text scale is 1, 1.1, 1.25 or 1.5 and the theme is system, light or dark |
| SettingsSchema.Parse | lib/settings/schema.ts:3-59 | `settingsSchema.parse` returns its input exactly when the input is valid, and otherwise fails with at least one issue |
| SettingsSchema.IssuesExactlyInvalid | lib/settings/schema.ts:3-59 | the issue list is empty exactly when the settings satisfy the schema |
| SettingsSchema.ClockShapeOnly | lib/settings/schema.ts:23-24 | the time pattern checks shape only: "99:99" passes, "7:00" and "07:00:00" fail |
| SettingsSchema.DefaultsRejected | lib/settings/types.ts:53-72 | `DEFAULT_SETTINGS` fails the schema, and only its device section is at fault |
| SettingsSchema.DefaultIssues | lib/settings/types.ts:68 | the one issue of the defaults is `device.sampleIntervalMs` |
| SettingsSchema.DefaultNameValid | lib/settings/types.ts:54 | the default display name "Patient" is within the 1..50 length bounds |
| SettingsSchema.DefaultEnumsListed | lib/settings/types.ts:63-71 | the default palette, smoothing window, export format, text scale and theme are among the schema's allowed values |
| SettingsSchema.CorrectedDefaultsValid | lib/settings/types.ts:68 | the defaults with a 1000 ms interval satisfy the schema, and differ from the defaults only in that interval |
| SettingsStore.Imported | lib/settings/store.ts:30-41 | an accepted import always satisfies the schema |
| SettingsStore.Exported | lib/settings/store.ts:42-45 | the export document carries version 1 |
| SettingsStore.Store.constructor | lib/settings/store.ts:18 | the store starts from the defaults, unvalidated; every method keeps the invariant that the store holds either the defaults or a value the schema accepted |
| SettingsStore.Store.SetSettings | lib/settings/store.ts:19-22 | `setSettings` stores its argument exactly when it is valid; otherwise it fails with the schema's issues and keeps the state |
| SettingsStore.Store.Patch | lib/settings/store.ts:23-28 | `patch` stores the shallow merge exactly when the merge is valid; otherwise it fails with the merge's schema issues, as `setSettings` does, and keeps the state |
| SettingsStore.Store.Reset | lib/settings/store.ts:29 | `reset` restores the defaults without validation |
| SettingsStore.Store.ImportJson | lib/settings/store.ts:30-41 | `importJson` stores the document's settings exactly when the import is accepted, and otherwise fails with the import error and keeps the state |
| SettingsStore.Store.ExportJson | lib/settings/store.ts:42-45 | the export holds the current settings and, when they are valid, imports back to them |
| SettingsStore.ExportImportRoundTrip | lib/settings/store.ts:30-45 | exporting valid settings and importing the result restores them |
| SettingsStore.ImportAccepts | lib/settings/store.ts:30-41 | an import is accepted exactly when the text parsed, the version is the number 1 and the settings pass the schema, and then it yields those settings. A parse failure is reported with the parser's message, and any other version as unsupported. For a version-1 settings record, the outcome is exactly that of `settingsSchema.parse` |
| SettingsStore.ErrorMessagePrefix | lib/settings/store.ts:39 | every import error message starts with "Invalid settings format: " |
| SettingsStore.MergeLaws | lib/settings/store.ts:25 | merging an empty patch changes nothing, and merging the same patch twice is merging it once |
| SettingsStore.MergeSections | lib/settings/store.ts:25 | an absent profile, alerts, device or calibration section is kept, and a supplied device section replaces the stored one whole |
| SettingsStore.PatchFromDefaultsFails | lib/settings/store.ts:23-29 | from the initial or reset state, every patch that leaves `device` alone is rejected |
| SettingsStore.PatchValidSections | lib/settings/store.ts:23-28 | from valid settings, a patch is accepted exactly when each section it supplies is valid |
| UseSettings.GetHeelThreshold | lib/settings/useSettings.ts:10-12 | the heel threshold of valid settings lies in [100, 600] |
| UseSettings.GetAnkleThreshold | lib/settings/useSettings.ts:14-16 | the ankle threshold of valid settings lies in [100, 600] |
| UseSettings.GetHeatmapPalette | lib/settings/useSettings.ts:18-20 | the palette of valid settings is one of the four palettes |
| UseSettings.GetSmoothingWindow | lib/settings/useSettings.ts:22-24 | the smoothing window of valid settings is 0, 5 or 10 |
| UseSettings.GetCalibrationParams | lib/settings/useSettings.ts:26-34 | the copied parameters equal the calibration section, and are valid when the settings are |
| UseSettings.DefaultReadings | lib/settings/types.ts:57-69 | under the defaults the getters give heel 300, ankle 350, no smoothing and calibration (0.18, 0.35, 0.12, false, 0) |
| CalibrationSettings.FormMatchesStore | components/settings/sections/Calibration.tsx:16-22 | the form schema accepts exactly what the store's schema accepts for calibration |
| CalibrationSettings.Submit | components/settings/sections/Calibration.tsx:36-42 | a submit happens exactly when the form is valid, and patches the calibration section alone |
| CalibrationSettings.SubmitOnlyCalibration | components/settings/sections/Calibration.tsx:36-37 | a submitted form replaces the calibration section, keeps the rest, and keeps valid settings valid |
| CalibrationSettings.StepInRange | components/settings/sections/Calibration.tsx:44-58 | from a step in 0..3, each button keeps the step in 0..3, and next saturates at 3 |
| CalibrationSettings.RunInRange | components/settings/sections/Calibration.tsx:29-58 | any sequence of button presses from a step in 0..3 stays in 0..3 |
| CalibrationSettings.FinishReturnsToStart | components/settings/sections/Calibration.tsx:52-53 | finishing always returns to step 0 |
| CalibrationSettings.ButtonAt | components/settings/sections/Calibration.tsx:164-203 | each step in 0..3 renders exactly one button: Start at 0, Zero/Next at 1 and 2, Finish at 3 |
| CalibrationSettings.ShownStep | components/settings/sections/Calibration.tsx:44-58 | pressing the button rendered at a step moves one step round the cycle 0, 1, 2, 3, 0 |
| CalibrationSettings.ShownRunCycles | components/settings/sections/Calibration.tsx:44-58 | k presses of rendered buttons from a step s in 0..3 end at (s + k) mod 4, and the presses are forced: press j is the button rendered at (s + j) mod 4 |
| CalibrationSettings.Walkthrough | components/settings/sections/Calibration.tsx:44-53 | start, zero, next reach step 3 and finish returns to 0, all through rendered buttons; a next at step 3 would stay at 3 (the `Math.min`), but step 3 renders no next button |
| CalibrationSettings.Wizard.constructor | components/settings/sections/Calibration.tsx:29 | the wizard starts at step 0 |
| CalibrationSettings.Wizard.StartCalibration | components/settings/sections/Calibration.tsx:44-46 | start moves to step 1 |
| CalibrationSettings.Wizard.NextStep | components/settings/sections/Calibration.tsx:48-50 | next moves to min(step + 1, 3) |
| CalibrationSettings.Wizard.FinishCalibration | components/settings/sections/Calibration.tsx:52-58 | finish moves to step 0 |
| AlertSettings.FormMatchesStore | components/settings/sections/Alerts.tsx:14-32 | the form schema accepts exactly what the store's schema accepts for alerts |
| AlertSettings.Submit | components/settings/sections/Alerts.tsx:45-51 | a submit happens exactly when the form is valid, and patches the alerts section alone |
| AlertSettings.SubmitOnlyAlerts | components/settings/sections/Alerts.tsx:45-46 | a submitted form replaces the alerts section, keeps the rest, and keeps valid settings valid |
| AlertSettings.StartEdited | components/settings/sections/Alerts.tsx:169-176 | editing the start shows the new start and keeps the shown end, or "07:00" when none is shown |
| AlertSettings.EndEdited | components/settings/sections/Alerts.tsx:182-189 | editing the end shows the new end and keeps the shown start, or "22:00" when none is shown |
| AlertSettings.EditsStayValid | components/settings/sections/Alerts.tsx:167-189 | editing one end with a well-formed time gives valid quiet hours when the other end was well formed or blank |
| AlertSettings.FirstEdit | components/settings/sections/Alerts.tsx:170-188 | with no quiet hours, editing the start gives (start, "07:00") and editing the end gives ("22:00", end) |
| AlertSettings.EditBoth | components/settings/sections/Alerts.tsx:170-188 | editing a non-empty start and then the end sets exactly those two times |
| AlertSettings.QuietHoursEditor.constructor | components/settings/sections/Alerts.tsx:40-43 | the field starts from the stored quiet hours |
| AlertSettings.QuietHoursEditor.EditStart | components/settings/sections/Alerts.tsx:170-176 | the start input's handler performs the start edit |
| AlertSettings.QuietHoursEditor.EditEnd | components/settings/sections/Alerts.tsx:183-189 | the end input's handler performs the end edit |
| AlertSettings.QuietHoursEditor.Clear | components/settings/sections/Alerts.tsx:192 | clear sets quiet hours to null, which the schema accepts |
| DeviceSettings.FormOf | components/settings/sections/Device.tsx:15-31 | the form built from the stored device section is valid exactly when that section is |
| DeviceSettings.Submit | components/settings/sections/Device.tsx:33-39 | a submit happens exactly when the interval is a number in [1000, 60000]. It patches the device section alone, with the form's values |
| DeviceSettings.SubmitOnlyDevice | components/settings/sections/Device.tsx:33-34 | a submitted form replaces the device section, keeps the rest, and keeps valid settings valid |
| DeviceSettings.SubmitRepairsDefaults | components/settings/sections/Device.tsx:33-34 | saving a valid device form over the defaults gives settings that pass the schema |
| DeviceSettings.SecondsShown | components/settings/sections/Device.tsx:88 | the seconds shown, times 1000, are the stored milliseconds |
| DeviceSettings.EnteredMs | components/settings/sections/Device.tsx:89 | typed text gives a number exactly when `parseInt` reads one |
| DeviceSettings.WholeSecondsRoundTrip | components/settings/sections/Device.tsx:88-89 | typing s whole seconds stores 1000s ms, and s is shown again |
| DeviceSettings.InputRangeIsSchemaRange | components/settings/sections/Device.tsx:89-91 | for whole seconds, the input's 1..60 range is exactly the schema's 1000..60000 ms |
| DeviceSettings.PartialInputs | components/settings/sections/Device.tsx:89 | "12.5" stores 12000 ms and a blank input stores NaN |
| DeviceSettings.DeviceFormState.constructor | components/settings/sections/Device.tsx:28-31 | the form starts from the stored device section |
| DeviceSettings.DeviceFormState.EnterSeconds | components/settings/sections/Device.tsx:89 | the interval input's handler stores `parseInt(text) * 1000` and nothing else |
| DeviceSettings.DeviceFormState.ForgetDevice | components/settings/sections/Device.tsx:72-78 | forget clears the preferred device and nothing else |
| SettingsPanel.ImportableIsPreviewable | components/settings/SettingsPanel.tsx:91-93 | every document the store would import passes the preview's structure check |
| SettingsPanel.PreviewWeakerThanImport | components/settings/SettingsPanel.tsx:91-93 | the truthiness check is weaker than the store's: versions 2 and "1" are previewed and then rejected, version 0 or null settings are refused |
| SettingsPanel.ChangesAmongEntries | components/settings/SettingsPanel.tsx:144-166 | the conditional pushes produce at most one entry per field, each field's current and previewed values |
| SettingsPanel.ChangesAmongFields | components/settings/SettingsPanel.tsx:144-166 | a field has an entry exactly when its previewed value differs from the current one |
| SettingsPanel.ChangesAmongOrdered | components/settings/SettingsPanel.tsx:144-166 | entries keep the order of the fields compared |
| SettingsPanel.DiffEntries | components/settings/SettingsPanel.tsx:137-169 | no preview gives no entries. Otherwise there are at most 5 entries, each pairing a field's current value with its previewed value |
| SettingsPanel.DiffFields | components/settings/SettingsPanel.tsx:144-166 | a field is listed exactly when there is a preview and its value differs from the current one |
| SettingsPanel.DiffOrdered | components/settings/SettingsPanel.tsx:144-168 | entries come in the order display name, heel threshold, ankle threshold, palette, sample interval |
| SettingsPanel.GenerateDiff | components/settings/SettingsPanel.tsx:137-169 | the five conditional pushes build exactly the specified diff |
| SettingsPanel.SameFieldsNoChange | components/settings/SettingsPanel.tsx:144-166 | a preview that agrees with the current settings on the five fields gives no entries |
| SettingsPanel.NonRecordAllChange | components/settings/SettingsPanel.tsx:141-166 | a previewed `settings` that is a boolean, a number or a string has no properties, so every optional-chained read is undefined and all five fields are listed |
| SettingsPanel.ChangeText | components/settings/SettingsPanel.tsx:145-165 | each entry's text starts with its caption and ": " |
| SettingsPanel.FindSection | components/settings/SettingsPanel.tsx:171 | `SECTIONS.find` yields nothing exactly when no entry has the id, and otherwise the first entry with it |
| SettingsPanel.EachSectionSelectable | components/settings/SettingsPanel.tsx:171-202 | selecting any listed section shows its component and its label as title |
| SettingsPanel.IdsDistinct | components/settings/SettingsPanel.tsx:28-36 | the seven section ids are distinct |
| SettingsPanel.UnknownSectionFallsBack | components/settings/SettingsPanel.tsx:171 | an unknown id shows the profile section, with no title |
| SettingsPanel.Panel.constructor | components/settings/SettingsPanel.tsx:39-43 | the panel opens on "profile" with both dialogs closed and no preview or file |
| SettingsPanel.Panel.SelectSection | components/settings/SettingsPanel.tsx:183 | a navigation button sets the active section and nothing else |
| SettingsPanel.Panel.HandleImport | components/settings/SettingsPanel.tsx:78-107 | no file: nothing happens. A parse failure reports its message. A file failing the structure check reports "Invalid settings file format". Either error changes nothing; otherwise the file is previewed |
| SettingsPanel.Panel.ConfirmImport | components/settings/SettingsPanel.tsx:109-129 | without a preview nothing happens. Otherwise the store imports the file: on success the dialog closes and preview and file are cleared; on failure the error is reported and the panel is unchanged |
| SettingsPanel.Panel.HandleExport | components/settings/SettingsPanel.tsx:60-76 | the exported document is the store's export, which imports back to the current settings when they are valid |
| SettingsPanel.Panel.CancelImport | components/settings/SettingsPanel.tsx:131-135 | cancel closes the dialog and drops preview and file |
| SettingsPanel.Panel.HandleReset | components/settings/SettingsPanel.tsx:47-49 | reset asks for confirmation and changes nothing else |
| SettingsPanel.Panel.ConfirmReset | components/settings/SettingsPanel.tsx:51-58 | confirming restores the defaults in the store and closes the confirmation |

## Left out

- Ankle formula: `Math.sin` of `Date.getHours()` (app/api/history/route.ts:90-91) depends on the wall clock and the time zone. It is the parameter `timeOfDay`, and the instant `now` is a parameter too. The rest of the formula and its rounding are modelled.
- Time and text: ISO timestamp strings are integer milliseconds. `toISOString`, `toLocaleString` and the JS number-to-text conversion in CSV rows, diff texts and event rows are the parameters `tsText`, `num` and `timeText`.
- Transport: `NextResponse`, URL parsing and `console` logging in `GET` are not modelled; the handler takes the three query parameters directly.
- Floating point: pressures, averages and `bucketSize` are exact reals and integer quotients, not IEEE doubles. `HistoryPrng` computes on unbounded integers reduced modulo 2^32, which matches the double arithmetic of `mulberry32` while the state stays below 2^53.
- RollingAverage.Smoothed: the window is an integer; a fractional `window` (which `Math.floor`/`Math.ceil` would handle) is not modelled.
- Browser side effects are not modelled: the CSV blob and anchor download, the PNG export, the settings file download and its dated file name, toasts, dialogs and all JSX rendering.
- Persistence: the zustand `persist` middleware and localStorage are not modelled; the store is an object holding the settings.
- JSON text: `JSON.parse` and `JSON.stringify` are abstracted. An import receives either the parsed document or the parser's error message. Top-level JSON values that are not objects (`null`, numbers) are not modelled.
- Error text: zod's issue messages are not modelled. Schema failures are reported as the paths of the failing fields, and the import message takes zod's text as a parameter.
- SettingsSchema.HistoryIssues: does not check that `uploadEndpoint` is a URL (`z.string().url()`), because URL syntax is not modelled.
- SettingsSchema.Parse: accepts settings whose `uploadEndpoint` is not a URL, because it rests on `HistoryIssues`, which leaves the URL check out.
- SettingsSchema.IssuesExactlyInvalid: relates the issue list to a schema without the `uploadEndpoint` URL check, for the reason given for `HistoryIssues`.
- Import preview of partial objects: `JObject` stands for every parsed object that is not a complete settings record, and the preview reads it as undefined in all five compared fields. The source compares whatever `profile`, `alerts`, `visualization` and `device` fields such an object has (`{profile: {displayName: "Patient"}}` compares its real display name), so the diff of a partial object is not modelled.
- Web Bluetooth `connectSensor` (components/settings/sections/Device.tsx:41-70) is not modelled: it needs the browser's Bluetooth API.
- The Profile, Visualization, History & Data and Accessibility section forms are not modelled: their schemas repeat lib/settings/schema.ts, which is modelled.
- The live demo page, the service worker, the PWA install prompt, the offline page and client-side fetching are not part of this model.

## Findings

| source | as written | input that shows it | evidently intended | confidence | as-written member | corrected member |
|---|---|---|---|---|---|---|
| lib/history/downsample.ts:19-25 | the last bucket's centroid range ends at floor((T-1)(n-2)/(T-2)) + 1, past n whenever n - 2 >= 2(T - 2), so `data[j].ts` is read on `undefined` and throws | 7 points down to 4 (range end 8); every chart series above 8000 points down to 1500 | end the last centroid range at n, so that it averages only existing points | high, not executed | Downsample.DownsampleLttbAsWritten | Downsample.DownsampleLttb |
| lib/settings/types.ts:68 | `DEFAULT_SETTINGS.device.sampleIntervalMs` is 500, below the schema's minimum of 1000 (lib/settings/schema.ts:37), so the initial and reset states fail the schema and every patch not replacing `device` throws | `patch({ alerts: DEFAULT_SETTINGS.alerts })` from the initial state | a default interval inside 1000..60000, e.g. 1000 ms | high, not executed | SettingsSchema.DefaultIssues | SettingsSchema.CorrectedDefaultsValid |
