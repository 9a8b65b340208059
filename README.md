# path-os: a verified model of the run store and the live tracking logic

path-os is a mobile run tracker. While a run is recorded, the running screen subscribes to
position updates. Each sample is shown on screen and written to a local SQLite store. When
the runner stops, the store computes the run's metrics from its stored samples, records the
run as completed and writes one split row per kilometre. The store's start-up routine,
`initDatabase` in lib/query.ts, completes every run left in progress as aborted. The run list
pages through all runs, the latest end time first and runs still in progress last. The
overview card adds up the finished runs of a week, month, year or all time.

This project models that core in Dafny and proves properties of the model:

- `Model` (lib/model.ts): the row types and the schemas that validate them.
- `Metrics` (lib/metrics.ts): duration, path length, elevation gain and average pace of a run.
- `Query` (lib/query.ts): the three tables as a `Tables` value with its invariant
  `TablesValid` (distinct primary keys, foreign keys, settled metrics), every store operation as a
  function on `Tables`, and the class `RunDb` whose methods update the tables in place and
  are proved equal to those functions.
- `Store` (lib/store.ts): the client-side run list with its cursor, and the overview card's state.
- `Calculate` (calculate.ts), `LiveLocation` (lib/location.ts): the distance, elevation and
  pace helpers of the screens.
- `Utils` (lib/utils.ts), `LegacyUtils` (utils.ts): the colour opacity helper and the
  conversion of a position sample into a location row.
- `RunningScreen` (components/running-screen.tsx): the tracking session as a class with the
  screen's state.
- `DistanceInput` (components/distance-input.tsx): the numeric-only distance field.
- Helpers: `Wrappers` (Option, Result), `Strings` (JavaScript's `toString`, `toString(16)`,
  `padStart`, `toUpperCase` and `replace` on the values that occur here), `Rows` (SQL
  `WHERE` as a stable filter, `ORDER BY` as a stable insertion sort).

Outside inputs are parameters of the model:

- geolib's `getDistance` is a `Distance` function on points.
- `calculateSplitMetrics` is a `SplitMetrics` function.
- date-fns `differenceInMinutes` and `Number.prototype.toFixed(2)` are function parameters.
- The current time is a `Clock` value.
- A failing split INSERT is the `failAt` parameter: the index of the first INSERT that fails.

The running screen does not await `insertLocation` and `completeRun`. A `TrackingSession`
therefore records each store call it issues in `calls`, oldest first, and
`RunningScreen.Perform` applies one such call to a `RunDb`.

Two behaviours of the source that the model keeps and proves:

- A pace within the last half second of a whole minute is shown with "60" seconds
  (`LiveLocation.SixtySeconds`: every pace in [119/120, 1) prints as "00:60").
- calculate.ts's `getAvgPace` divides by a zero distance and returns Infinity or NaN
  (`Calculate.GetAvgPace` returns a non-finite `JsNumber` there).

## Model

| member | source | states |
|---|---|---|
| Model.ParseRunStatus | lib/model.ts:3-7 | a status text parses exactly when it is "in_progress", "completed" or "aborted", and parses to the status stored as that text |
| Model.RunStatusTextRoundTrip | lib/model.ts:3-7 | writing a status as text and parsing it back gives the same status |
| Model.AsUncompleted | lib/model.ts:9-29 | a completed run is valid under CompletedRunSchema exactly when, read back with every metric present, it is valid under UncompletedRunSchema |
| Model.NullMetricsAreValid | lib/model.ts:21-29 | a freshly created run row, with every metric NULL, is valid under UncompletedRunSchema |
| Model.SplitWithoutId | lib/model.ts:33-48 | a stored split is valid exactly when its id is non-negative and its data are a valid UncompletedSplit |
| Model.Sample | lib/model.ts:52-68 | a stored location is valid exactly when its ids are non-negative and its sample is a valid UncompletedLocation; the sample keeps position, altitude and time |
| Model.LocationValidityIgnoresPosition | lib/model.ts:63-68 | whether a sample is valid depends only on its timestamp, not on latitude, longitude or altitude |
| Model.ParseRunId | lib/model.ts:72-74 | RunIdSchema accepts exactly the non-negative run ids and passes them through unchanged |
| Metrics.Round | lib/metrics.ts:37 | Math.round gives the integer within half a unit, ties upward |
| Metrics.RoundMonotonic | lib/metrics.ts:37 | rounding preserves order |
| Metrics.DistanceReduceIsPathLength | lib/metrics.ts:14-26 | the distance reduce, starting at 0, sums the distance between each pair of consecutive samples |
| Metrics.DistanceReduceFrom | lib/metrics.ts:14-26 | the reduce from index i adds to its accumulator the path length of the samples from i-1 on |
| Metrics.PathLengthAppend | lib/metrics.ts:14-26 | one more sample adds the distance from the last sample to it |
| Metrics.PathLengthGrows | lib/metrics.ts:14-26 | one more sample never shortens the path |
| Metrics.Rise | lib/metrics.ts:30-32 | a step's gain is non-negative and is zero exactly when the altitude (missing read as 0) does not rise |
| Metrics.Climb | lib/metrics.ts:28-33 | the total elevation gain is non-negative |
| Metrics.ElevationReduceIsClimb | lib/metrics.ts:28-33 | the elevation reduce, starting at 0, is the sum of the step gains |
| Metrics.ElevationReduceFrom | lib/metrics.ts:28-33 | the reduce from index i adds to its accumulator the climb of the altitudes from i-1 on |
| Metrics.ClimbAppend | lib/metrics.ts:28-33 | one more altitude adds the gain of its step from the last one |
| Metrics.ClimbGrows | lib/metrics.ts:28-33 | one more altitude never lowers the total gain |
| Metrics.ClimbWithoutAltitudes | lib/metrics.ts:30-31 | with no altitude reported anywhere the gain is zero |
| Metrics.Points | lib/metrics.ts:19-23 | the points are the samples' latitude and longitude, one per sample, in order |
| Metrics.Altitudes | lib/metrics.ts:30-31 | the altitudes are the samples' altitudes, one per sample, in order |
| Metrics.AvgPace | lib/metrics.ts:35-38 | without distance the pace is 0; otherwise it is the rounded seconds per kilometre, non-negative for a non-negative duration |
| Metrics.CalculateRunMetrics | lib/metrics.ts:4-46 | the duration is the first-to-last time gap in seconds, the distance the path length, the gain the climb, the pace from both; a single sample gives all zeros; time-ordered samples give non-negative duration and pace |
| Metrics.MetricsGrowWithSamples | lib/metrics.ts:14-33 | one more sample never lowers the distance or the elevation gain |
| Metrics.NoAltitudeNoGain | lib/metrics.ts:28-33 | a run without altitudes has zero elevation gain |
| Calculate.ObjPoints | calculate.ts:5-15 | the points of the position samples, one per sample, in order |
| Calculate.ObjAltitudes | calculate.ts:25-26 | the altitudes of the position samples, one per sample, in order |
| Calculate.GetElevationGain | calculate.ts:17-34 | the loop returns the total climb of the altitudes (missing read as 0): non-negative, and 0 below two samples |
| Calculate.Converted | lib/utils.ts:13-22 | each position sample converted to a location, in order |
| Calculate.ElevationGainAgreesWithMetrics | calculate.ts:17-34 | the screen's elevation gain equals the gain calculateRunMetrics computes for the same samples |
| Calculate.TotalDistanceKm | calculate.ts:36-49 | the total distance in kilometres is the path length over 1000: non-negative, and 0 below two samples |
| Calculate.Divide | calculate.ts:62-63 | JavaScript division: finite exactly when the divisor is not zero, and then the exact quotient |
| Calculate.GetAvgPace | calculate.ts:51-66 | 0 below two samples or without a start date; not finite when the path has no length; otherwise the minutes between the dates per kilometre |
| LiveLocation.TotalDistanceKm | lib/location.ts:9-24 | the total distance in kilometres is the path length over 1000: non-negative, and 0 below two samples |
| LiveLocation.TotalDistanceAgrees | lib/location.ts:9-24 | the two copies of getTotalDistanceInKilometers (lib/location.ts and calculate.ts) agree on every input |
| LiveLocation.TotalDistanceKmString | lib/location.ts:31-43 | "0,00" without distance; otherwise the two-decimal text with its first '.' replaced by ',' |
| LiveLocation.SecondsPart | lib/location.ts:74 | the rounded seconds of the fractional minute are at most 60 |
| LiveLocation.MinutesSecondsShape | lib/location.ts:71-76 | the text is the padded minutes, a colon, then the padded seconds (two digits) |
| LiveLocation.FormatPaceShape | lib/location.ts:71-76 | a formatted pace is the padded whole minutes, a colon and the padded rounded seconds, which are at most 60 |
| LiveLocation.SixtySeconds | lib/location.ts:71-76 | every pace in [119/120, 1) has seconds part 60 and is shown as "00:60" |
| LiveLocation.ZeroSixty | lib/location.ts:71-76 | zero minutes and sixty seconds print as "00:60" |
| LiveLocation.ZeroInTwoDigits | lib/location.ts:72 | 0 padded to two digits is "00" |
| LiveLocation.SixtyInTwoDigits | lib/location.ts:74-76 | 60 padded to two digits is "60" |
| LiveLocation.MinutesPerKm | lib/location.ts:66-69 | the pace over a positive distance is non-negative |
| LiveLocation.MinutesPerKmScale | lib/location.ts:66-69 | the source's minutes over kilometres is the same number as MinutesPerKm of the milliseconds and metres |
| LiveLocation.PaceBetween | lib/location.ts:62-69 | the pace between two samples is absent without distance, and non-negative otherwise |
| LiveLocation.GetPace | lib/location.ts:50-79 | "00:00" below two samples or when the last two samples are at the same place; otherwise the formatted minutes per kilometre between the last two samples |
| LiveLocation.PaceUsesLastTwo | lib/location.ts:55-56 | samples before the last two do not change the current pace |
| LiveLocation.PaceIgnoresTimeOrder | lib/location.ts:66-67 | swapping the two samples' times leaves the pace unchanged |
| LiveLocation.PerKilometre | lib/location.ts:97-104 | the minutes over the distance in kilometres is MinutesPerKm of the milliseconds and metres |
| LiveLocation.GetAvgPace | lib/location.ts:86-111 | "00:00" below two samples or without distance; otherwise the formatted minutes per kilometre from the first to the last sample |
| Utils.Alpha | lib/utils.ts:5 | for a percentage in [0, 100] the alpha byte is in [0, 255] |
| Utils.SuffixDigits | lib/utils.ts:5-8 | for a percentage in [0, 100] the suffix is two upper-case hex digits spelling the alpha byte |
| Utils.ApplyHexOpacity | lib/utils.ts:4-11 | the colour is kept as a prefix; for a percentage in [0, 100] exactly two upper-case hex digits follow, denoting the rounded alpha byte |
| Utils.TransparentSuffix | lib/utils.ts:4-11 | 0% opacity appends "00" |
| Utils.OpaqueSuffix | lib/utils.ts:4-11 | 100% opacity appends "FF" |
| Utils.AlphaMonotonic | lib/utils.ts:5 | a higher percentage never gives a lower alpha byte |
| Utils.ConvertLocationObjectToLocation | lib/utils.ts:13-22 | the location keeps the sample's latitude, longitude, altitude and timestamp |
| Utils.ConversionInjective | lib/utils.ts:13-22 | two samples that convert to the same location are equal |
| LegacyUtils.ApplyHexOpacity | utils.ts:1-8 | the colour is kept as a prefix; for a percentage in [0, 100] exactly two upper-case hex digits follow |
| LegacyUtils.SameAsLibUtils | utils.ts:1-8 | the legacy helper returns what lib/utils.ts's applyHexOpacity returns, on every input |
| Strings.NatToDecimal | lib/location.ts:72 | `toString()` of a whole number is its shortest decimal spelling: one digit exactly below 10 |
| Strings.PadStart | lib/location.ts:72 | padding keeps the text as a suffix and fills up to the width with the fill character |
| Strings.TwoDigits | lib/location.ts:72 | a padded number has at least two digits, still denotes the number, and has exactly two below 100 |
| Strings.NatToHex | lib/utils.ts:6 | `toString(16)` gives lower-case hex digits, at most two below 256 |
| Strings.ToUpper | lib/utils.ts:8 | upper-casing maps each character and keeps the length |
| Strings.UpperHexOfNat | lib/utils.ts:5-8 | the padded, upper-cased hex spelling of a number denotes that number |
| Strings.UpperHexDigits | lib/utils.ts:6-8 | the upper-cased hex spelling is upper-case hex and denotes the number |
| Strings.ReplaceFirst | lib/location.ts:40 | `replace` with a character keeps the length, puts the new character at the first occurrence, keeps every other position, and changes nothing when the character is absent |
| Rows.Filter | lib/query.ts:175-178 | the rows a WHERE clause keeps: exactly those that satisfy it, in table order |
| Rows.FilterAppend | lib/store.ts:32 | filtering a concatenation is filtering each part |
| Rows.FilterNarrower | lib/query.ts:354-360 | filtering by a condition after one it implies is filtering by it alone |
| Rows.FilterCountMonotone | lib/query.ts:354-360 | a condition that implies another keeps at most as many rows |
| Rows.FilterAll | lib/store.ts:32 | a condition every row satisfies keeps the table |
| Rows.FilterDistinct | lib/query.ts:186-196 | a WHERE filter keeps distinct keys distinct, so a DELETE keeps a primary key unique |
| Rows.InsertBy | lib/query.ts:176 | inserting into a sorted list keeps it sorted and adds exactly that row |
| Rows.SortBy | lib/query.ts:176 | ORDER BY returns a sorted permutation of the rows |
| Query.EmptyTablesValid | lib/query.ts:40-73 | the empty tables satisfy the table invariant |
| Query.CreateRunFresh | lib/query.ts:148-163 | createRun adds one in-progress run under a positive id no run had, changes no other table, and keeps the tables valid |
| Query.LocationsFor | lib/query.ts:170-181 | a run's locations are exactly its rows of the location table, in ascending time order, each row as often as the table holds it |
| Query.Samples | lib/query.ts:222 | the samples the metrics are computed from, one per stored location, in order |
| Query.SamplesInTimeOrder | lib/query.ts:175-178 | the locations of a run reach the metrics in time order |
| Query.DeleteRunCascades | lib/query.ts:186-196 | deleteRun removes the run and, by the cascades, its locations and splits, keeps every other row, and keeps the tables valid |
| Query.InsertLocationOutcome | lib/query.ts:304-333 | insertLocation succeeds exactly for a non-negative id of an existing run and a non-negative time; a missing run is a foreign-key error; on success the sample is appended under a new id and nothing else changes; on failure nothing changes |
| Query.Numbered | lib/query.ts:284-289 | the inserted split rows are the computed splits in order, under the run id, numbered by consecutive ids |
| Query.NumberedAppend | lib/query.ts:284-289 | each INSERT adds the next numbered row |
| Query.Inserted | lib/query.ts:284-289 | fewer INSERTs go through than there are splits exactly when one of them fails |
| Query.InsertSplitsOutcome | lib/query.ts:271-296 | insertSplits keeps the tables valid and changes only the split table; with no splits to write it succeeds and changes nothing; for an existing run it adds a prefix of the computed splits, all of them exactly when no write fails; without the run, splits to write fail on the foreign key and change nothing |
| Query.InsertSplitsWritten | lib/query.ts:284-296 | for an existing run with splits to write, insertSplits adds a numbered prefix of them under fresh ids, all of them exactly when no write fails, and otherwise fails with the write error |
| Query.InsertSplitsExit | lib/query.ts:284-296 | after the INSERT loop stops, the table holds the numbered prefix, the outcome says whether it stopped early, and the tables are valid |
| Query.NumberedSplitsValid | lib/query.ts:64-73 | appending numbered splits of an existing run keeps the tables valid |
| Query.Finished | lib/query.ts:222-229 | the completed run has the run's id, the last location's time, the status the abort flag asks for, and the metrics of the run's locations |
| Query.UpdateRuns | lib/query.ts:233-253 | the UPDATE replaces every row with the run's id by the completed row and keeps every other row where it is |
| Query.CompleteRunWithoutSamples | lib/query.ts:212-220 | a run with at most one location is deleted with its locations and splits, every other run stays, the tables stay valid, and the result is false |
| Query.LocationsBelongToRun | lib/query.ts:60 | a run that has stored locations exists and has a positive id |
| Query.FinishedRunIsValid | lib/query.ts:222-231 | the run completed from two or more stored locations passes CompletedRunSchema, with a non-negative duration |
| Query.UpdateKeepsValid | lib/query.ts:233-253 | the UPDATE keeps the set of run ids and the table invariant |
| Query.UpdateSetsRun | lib/query.ts:233-253 | after the UPDATE the run's rows are the completed row, every other run stays, no run became in progress, and the other tables are unchanged |
| Query.InsertSplitsKeepsRuns | lib/query.ts:271-296 | insertSplits never changes the run or location tables |
| Query.CompleteRunFinishes | lib/query.ts:203-264 | with two or more locations the run stays, carrying its status, end time and metrics; the other runs and the locations stay; the result is true exactly when every split is written, and a write failure otherwise |
| Query.DeleteEndsProgress | lib/query.ts:186-196 | after deleteRun no run with that id, and no new run, is in progress |
| Query.CompleteRunUpdates | lib/query.ts:222-259 | the completed run is valid, the UPDATE keeps the tables valid, and completeRun is the UPDATE followed by insertSplits |
| Query.CompleteKeepsValid | lib/query.ts:203-264 | completeRun keeps the tables valid in every case |
| Query.InProgressIds | lib/query.ts:119-123 | the ids the recovery query selects are exactly those of the runs in progress |
| Query.CompleteEndsProgress | lib/query.ts:203-264 | after completeRun(id) no run with that id is in progress, and no run became one |
| Query.RecoveryEndsProgress | lib/query.ts:130-136 | completing the listed runs one after another keeps the tables valid, starts no run, and leaves none of them in progress |
| Query.RecoveryFinishesEveryRun | lib/query.ts:116-142 | after completeInProgressRuns no run is in progress and the tables are valid |
| Query.DeleteLeavesOthers | lib/query.ts:186-196 | deleteRun keeps the rows and the time-ordered locations of every other run exactly as they were |
| Query.UpdateLeavesOthers | lib/query.ts:233-254 | completeRun's `UPDATE … WHERE id = ?` keeps the rows of every other run and every location |
| Query.CompleteOtherRun | lib/query.ts:203-264 | completeRun of one run keeps the rows and the time-ordered locations of every other run exactly as they were, whatever fails |
| Query.CompleteOwnRun | lib/query.ts:203-264 | completeRun(id, aborted) with two or more locations keeps the run and its locations, and every row of it becomes the aborted run built from those locations; with fewer the run is gone |
| Query.RecoveredStays | lib/query.ts:130-136 | a run recovered from its locations stays so when any run, itself included, is completed as aborted |
| Query.RecoveryKeepsRecovered | lib/query.ts:130-136 | completing any list of runs as aborted keeps a recovered run recovered |
| Query.RecoveryRecovers | lib/query.ts:130-136 | completing a list that holds a run leaves it recovered from the locations it had before the loop, whatever the other runs do and whatever split insertion fails |
| Query.RecoveryLeavesOthers | lib/query.ts:130-136 | completing a list that leaves a run out keeps that run's rows and locations as they were |
| Query.RecoveryAbortsOrDeletes | lib/query.ts:116-142 | after completeInProgressRuns every run that was in progress with two or more locations still exists with the same locations, and each of its rows is the aborted run computed from them; every such run with fewer locations is gone; every finished run and its locations stay |
| Query.Listing | lib/query.ts:396-401 | the run list has one entry per run |
| Query.ListingNewestFirst | lib/query.ts:396-401 | the run list is a rearrangement of the runs' selected columns (each run once, none added), later end times first and unfinished runs last |
| Rows.MapPermutation | lib/query.ts:396-401 | selecting columns from two rearrangements of the same rows gives two rearrangements of the same results |
| Query.PageOf | lib/query.ts:385-421 | a page holds at most 10 runs, the next 10 of the list from the cursor; the next cursor is the cursor plus 10 exactly when more runs follow, and null otherwise |
| Query.ScrollShowsAll | lib/query.ts:385-421 | following the cursors from an offset shows every later run once, in order |
| Query.TwentyFiveRuns | lib/query.ts:385-421 | twenty-five runs come as pages of 10, 10 and 5, with cursors 10, 20 and null |
| Query.Sum | lib/query.ts:351-353 | SQL SUM, over INTEGER or REAL values, is NULL exactly when every value is NULL |
| Query.CountValuesZero | lib/query.ts:352 | no non-NULL value is counted exactly when the sum is NULL |
| Query.Avg | lib/query.ts:352 | SQL AVG is NULL exactly when the sum is NULL |
| Query.Distances | lib/query.ts:351 | the distance column of the counted rows, in order |
| Query.Paces | lib/query.ts:352 | the pace column of the counted rows, in order |
| Query.Durations | lib/query.ts:353 | the duration column of the counted rows, in order |
| Query.OverviewOfNoRuns | lib/query.ts:365-373 | with no run to count the overview shows "0" meters, "00:00" pace and "00:00" minutes |
| Query.OverviewOfEmptyTable | lib/query.ts:365-373 | an empty run table gives the placeholders for every interval |
| Query.OverviewIgnoresInProgress | lib/query.ts:355 | runs in progress never change the overview |
| Query.OverviewNullExactlyWhenEmpty | lib/query.ts:348-361 | over valid tables each aggregate is NULL exactly when no run is counted |
| Query.LaterWindowCountsFewer | lib/query.ts:356-360 | a later window start never counts more runs |
| Query.AllCountsMost | lib/query.ts:346-360 | `all` counts at least as many runs as any window |
| Query.RunDb.constructor | lib/query.ts:40-73 | the new store holds empty tables, which are valid |
| Query.RunDb.CreateRun | lib/query.ts:148-163 | the store becomes createRun's tables and returns the new run's id |
| Query.RunDb.GetLocationsForRun | lib/query.ts:170-181 | returns the run's locations in time order |
| Query.RunDb.DeleteRun | lib/query.ts:186-196 | the store becomes deleteRun's tables and stays valid |
| Query.RunDb.InsertLocation | lib/query.ts:304-333 | the store and the result are insertLocation's, and the store stays valid |
| Query.RunDb.InsertSplits | lib/query.ts:271-296 | the store and the result are insertSplits', and the store stays valid |
| Query.RunDb.WriteSplits | lib/query.ts:284-289 | the loop writes the numbered prefix of the splits up to the first failing INSERT, fails on a missing run without writing, and changes no other table |
| Query.RunDb.CompleteRun | lib/query.ts:203-264 | the store and the result are completeRun's, and the store stays valid |
| Query.RunDb.UpdateRun | lib/query.ts:233-253 | the store becomes the UPDATE's tables and stays valid |
| Query.RunDb.CompleteInProgressRuns | lib/query.ts:116-142 | the store becomes the result of completing every in-progress run as aborted, in turn, and afterwards no run is in progress |
| Query.RunDb.GetRuns | lib/query.ts:385-421 | a negative cursor is rejected; otherwise the result is the page of the run list at the cursor |
| Query.RunDb.GetOverview | lib/query.ts:340-378 | returns the overview of the store's runs for the interval |
| Store.ShiftBack | lib/store.ts:25-35 | moving the cursor back undoes moving it forward, and a null cursor stays null |
| Store.WithoutId | lib/store.ts:30-35 | the runs without that id, exactly those with another id, no more of them than before |
| Store.WithoutIdAppend | lib/store.ts:30-35 | removing from a concatenation removes from each part in order |
| Store.WithoutAbsentId | lib/store.ts:30-35 | removing an id no run has changes nothing |
| Store.WithoutIdIdempotent | lib/store.ts:30-35 | removing the same id twice is removing it once |
| Store.WithoutIdDropsOnlyThatId | lib/store.ts:30-35 | removal drops the first run exactly when it has the id and keeps the rest's treatment unchanged |
| Store.AddThenRemoveRestores | lib/store.ts:25-35 | addNewestRun of a run not listed, followed by removeRun of its id, gives back the list and the cursor |
| Store.RunStore.constructor | lib/store.ts:15-20 | the store starts not running, with cursor 0 and no runs |
| Store.RunStore.SetIsRunning | lib/store.ts:17 | sets the running flag and nothing else |
| Store.RunStore.SetCursor | lib/store.ts:19 | sets the cursor and nothing else |
| Store.RunStore.AddRuns | lib/store.ts:21-24 | the fetched page goes after the runs already listed |
| Store.RunStore.AddNewestRun | lib/store.ts:25-29 | the run goes first and a non-null cursor moves up by one |
| Store.RunStore.RemoveRun | lib/store.ts:30-35 | the runs with that id go and a non-null cursor moves down by one |
| Store.OverviewStore.constructor | lib/store.ts:45-50 | the overview state starts at the week interval with no overview |
| Store.OverviewStore.SetInterval | lib/store.ts:47 | sets the interval and nothing else |
| Store.OverviewStore.SetOverview | lib/store.ts:49 | sets the overview and nothing else |
| RunningScreen.Perform | components/running-screen.tsx:80-81 | applying an issued call keeps the store valid and gives insertLocation's or completeRun's (not aborted) tables |
| RunningScreen.TrackingSession.constructor | components/running-screen.tsx:24-32 | the screen starts with no samples, no run, timer 0, not paused, no subscription and no calls |
| RunningScreen.TrackingSession.Mount | components/running-screen.tsx:35-44 | the run is created in the store, its id kept, and, with the permission, position updates for it start; without it the running flag is cleared |
| RunningScreen.TrackingSession.StartTracking | components/running-screen.tsx:65-94 | without the permission the running flag is cleared and the subscription is left as it was; with it the subscription is for the given run |
| RunningScreen.TrackingSession.OnLocation | components/running-screen.tsx:78-86 | while subscribed a sample is shown and an insert for the subscribed run is issued; otherwise nothing changes |
| RunningScreen.TrackingSession.StopTracking | components/running-screen.tsx:96-105 | the subscription goes, the run's completion is issued if there is a run, and the samples are cleared |
| RunningScreen.TrackingSession.PauseTracking | components/running-screen.tsx:107-113 | a live subscription is removed and the session paused; without one nothing changes |
| RunningScreen.TrackingSession.ResumeTracking | components/running-screen.tsx:115-120 | with a run, the session is no longer paused and, with the permission, subscribed for that run again |
| RunningScreen.TrackingSession.PressPauseResume | components/running-screen.tsx:209-215 | a paused session resumes; a live one is paused |
| RunningScreen.TrackingSession.PressStop | components/running-screen.tsx:217-229 | the run's completion is issued, the subscription and samples go and the running flag is cleared |
| RunningScreen.TrackingSession.Tick | components/running-screen.tsx:55-63 | a second passes on the timer unless the session is paused |
| RunningScreen.TrackingSession.Unmount | components/running-screen.tsx:46-50 | the subscription and samples go; the run and the calls stay |
| DistanceInput.NextDistance | components/distance-input.tsx:38-46 | text of digits, or empty text, becomes the distance; any other text leaves it unchanged |
| DistanceInput.DistanceStaysNumeric | components/distance-input.tsx:38-46 | a distance that is empty or digits stays so after any change |
| DistanceInput.ChangeIdempotent | components/distance-input.tsx:38-46 | the same change twice is the same change once |
| DistanceInput.DistanceField.constructor | components/distance-input.tsx:38-46 | the field starts empty and valid |
| DistanceInput.DistanceField.OnChangeText | components/distance-input.tsx:38-46 | the field becomes the next distance and stays empty or digits |

## Left out

- geolib's `getDistance`, date-fns `differenceInMinutes`, `toFixed(2)` and `calculateSplitMetrics` are function parameters. Their own arithmetic is not part of this model.
- lib/location.ts imports `getDistanceInMeter` from lib/utils.ts, which does not define it. The model uses calculate.ts's `getDistanceInMeter`.
- The timer display uses `msToMinutesAndSeconds`, which lib/utils.ts does not define, so the rendered timer text is not modelled. The timer's value is (`Tick`).
- ActivityRunSchema, CursorSchema and OverviewSchema are not part of this model.
  - The run list rows are taken as they are selected.
  - A negative cursor is rejected as a validation error.
  - The overview's display formatting is an `OverviewFormat` parameter.
- SQLite's `strftime('%s', 'now', '-1 month')` and `'-1 year'` are fields of the `Clock` parameter. The calendar arithmetic is not modelled; the week window is written out as 7 days.
- Among store failures, only the failure of a split INSERT is modelled (`failAt`). Other SQLite errors (disk, locking) and their log lines are left out, as are `initDatabase`, `resetDatabase`, PRAGMA and index creation, lib/db.ts and `getRunById`.
- The model assumes lib/query.ts's `initDatabase` (lib/query.ts:28-90) has run: the tables exist, foreign keys are enforced (lib/query.ts:38) and in-progress runs are recovered. The app's root layout (app/_layout.tsx:3-8) calls the older `initDatabase` of db.ts instead, which is not part of this model.
- The UncompletedRunSchema and CompletedLocationSchema parses of rows read back cannot fail while the tables are valid, so they are proved rather than branched on.
- `completeInProgressRuns` catches and logs each run's error and goes on. The model goes on in the same way, and the error text is not kept.
- Concurrency: the running screen issues `insertLocation` and `completeRun` without awaiting them. The model applies the issued calls in the order issued (`RunningScreen.Perform`); interleavings of the promises are not modelled.
- `startTracking` awaits the permission prompt and `watchPositionAsync`. The model takes the prompt's outcome as the `granted` parameter and applies it at once; the position watcher's callbacks are calls of `OnLocation`.
- Error callbacks and console logging of the watcher are left out.
- Numbers are exact reals and unbounded integers, not IEEE doubles.
  - LiveLocation.MinutesPerKm: the source divides twice (`/ 1000 / 60`, then `/ (metres / 1000)`); over exact reals this is one division (`MinutesPerKmScale`), so rounding of the intermediate doubles is not modelled.
  - NaN and Infinity inputs are not modelled, except for the division by zero in calculate.ts's `getAvgPace`.
- getPace's `!locationOne || !locationTwo` guard cannot fire once two samples exist, so it has no branch in the model.
- SQLite returns rows with equal sort keys in an unspecified order. The model sorts stably, so equal timestamps keep table order.
- The distance input's `maxLength={3}` is enforced by the text widget and is not modelled.
- Rendering, theming, styles (lib/styles.ts, lib/theme.ts) and navigation are left out.
