# Oxygen monitor core: live poll step and history aggregation

This project models the two pieces of logic inside the child-safety app's
screens. Both are written as pure functions over immutable state records.

- **Live reading** (`HomeScreen.js`). One poll of `fetchLatestData` is a
  transition on the home screen's state record: `oxygenLevel`, `status`,
  `isConnected`, `lastUpdate`, `refreshing`, `loading` and `recentReadings`.
  The step classifies the level into Normal / Warning / Alert (`updateStatus`).
  It appends the reading to a rolling window that keeps the 10 newest entries.
  It decides whether the emergency alert fires. A failed fetch marks the screen
  disconnected and clears `loading` and `refreshing`; nothing else changes.
- **History** (`HistoryScreen.js`). `loadHistoricalData` picks its readings
  from the remote fetch when that returns something. Otherwise it uses the
  local store's readings, filtered to the selected range by
  `filterDataByRange`. When the remote call throws, it reads the local store
  in the catch path. `calculateStatistics` summarises the chosen readings as
  average, minimum and maximum.

Modules:

- `Fetching`: the result of an awaited collaborator call, `Ok(value)` or `Err`.
- `Readings`: the timestamped reading that the history screen works on.
- `Window`: the keep-newest-10 rolling window.
- `Home`: the classifier, the alert condition, the poll step and runs of steps.
- `RangeFilter`: range lookbacks and the window filter.
- `Statistics`: average, minimum and maximum.
- `History`: source selection and fallback for a history load.

The collaborators become inputs:

- The latest-reading fetch is a `Fetch<Payload>`.
- The formatted wall-clock time is an opaque string.
- Whether the alert's dialog or push notification throws, should the alert fire, is a boolean.
- The remote historical fetch and each local storage read are `Fetch<seq<Reading>>` values.
- "Now" is one integer of milliseconds.

Points where the code's behaviour differs from what a reader might expect of
such a monitor, all modelled as the code behaves:

- The range filter is exclusive at both ends: `cutoff < t < now`. A reading
  exactly at the cutoff is dropped.
- The alert also fires when the payload's `is_alert` flag is set, whatever the
  level.
- When the first fetch throws, the screen keeps its placeholder values: a safe
  21.0% reading at Normal status, with no last update time, now shown
  disconnected. It never received that reading.
- There is no alert state carried between ticks. Whether an alert fires is
  decided from the current payload alone, so an unsafe reading alerts again on
  every tick.
- If the alert's dialog or push notification throws, the catch block runs
  after the new reading was already stored. The screen keeps the new reading
  and shows disconnected.
- When the remote call throws and the catch-path storage read also throws, the
  history screen silently keeps its previous readings and statistics. No
  failure is reported; a stricter variant would report an aggregation failure.
- An empty remote result followed by a failed storage read makes the catch
  path read storage a second time.
- Window entries are `{time, value}` pairs, where `time` is the formatted clock
  string. They are not timestamped readings.

## Model

| member | source | states |
|---|---|---|
| Window.Push | ChildSaftey/src/Screens/HomeScreen.js:117-120 | the new window holds min(\|prev\|+1, 10) entries: the newest of prev + [new] in arrival order, with the new reading last; below capacity nothing is evicted |
| Window.PushAllKeepsNewest | ChildSaftey/src/Screens/HomeScreen.js:117-120 | after any number of pushes onto a window within capacity, the window is exactly the newest min(\|w\|+n, 10) of everything pushed, in arrival order |
| Window.PushAllFromEmpty | ChildSaftey/src/Screens/HomeScreen.js:117-120 | starting empty, after n pushes the window is the last min(n, 10) readings pushed |
| Home.Classify | ChildSaftey/src/Screens/HomeScreen.js:137-145 | classification is total and banded: Normal iff level >= 20.0, Warning iff 19.5 <= level < 20.0, Alert iff level < 19.5 |
| Home.ClassifyMonotone | ChildSaftey/src/Screens/HomeScreen.js:137-145 | a lower level never gets a less severe status |
| Home.ClassifyBoundaries | ChildSaftey/src/Screens/HomeScreen.js:137-145 | 20.0 is Normal and 19.5 is Warning |
| Home.ShouldAlert | ChildSaftey/src/Screens/HomeScreen.js:123-125 | the alert fires iff the is_alert flag is set or the level classifies as Alert |
| Home.Initial | ChildSaftey/src/Screens/HomeScreen.js:68-74 | the initial screen shows the placeholder level 21.0 at Normal status with an empty last update, is loading, connected and not refreshing, has an empty window, and is coherent |
| Home.FirstFailureShowsPlaceholder | ChildSaftey/src/Screens/HomeScreen.js:68-131 | a failed first fetch leaves the placeholder 21.0 / Normal / empty last update on screen, disconnected, not loading, with an empty window |
| Home.Poll | ChildSaftey/src/Screens/HomeScreen.js:88-135 | success sets level, status = classify(level), last update and the pushed window, and shows connected unless the alert fired and its side effects threw; a failed fetch changes only isConnected and loading; every outcome clears refreshing and loading; the alert fires exactly on successes whose payload is flagged or below 19.5 |
| Home.AlertFailureOnlyDisconnects | ChildSaftey/src/Screens/HomeScreen.js:103-131 | when the alert fires and its side effects throw, the step keeps every success update but shows disconnected; when no alert fires, a throwing side effect changes nothing |
| Home.Refresh | ChildSaftey/src/Screens/HomeScreen.js:175-178 | a pull-to-refresh ends in the same state and alert as a plain poll with the same inputs |
| Home.NoDebounce | ChildSaftey/src/Screens/HomeScreen.js:123-125 | whether the alert fires does not depend on the previous state: every Alert-status reading alerts |
| Home.PollPreservesCoherent | ChildSaftey/src/Screens/HomeScreen.js:102-134 | each step keeps status = classify(level), the window within 10, and the newest window entry equal to (last update, level) |
| Home.RunPreservesCoherent | ChildSaftey/src/Screens/HomeScreen.js:76-86 | any series of poll ticks from a coherent state ends coherent |
| Home.RunWindowIsPushAll | ChildSaftey/src/Screens/HomeScreen.js:117-134 | over a series of ticks, failures leave the window alone and each success pushes its reading |
| Home.RunWindowKeepsNewest | ChildSaftey/src/Screens/HomeScreen.js:117-120 | after any series of ticks the window is the newest min(\|prev\|+n, 10) of the previous window followed by the n successful readings |
| Home.FailuresOnlyDisconnect | ChildSaftey/src/Screens/HomeScreen.js:128-134 | a non-empty series of failed fetches leaves level, status, last update and window unchanged and only marks the screen disconnected and not loading |
| RangeFilter.Lookback | ChildSaftey/src/Screens/HistoryScreen.js:70-82 | the hour, day and week ranges look back 1 h, 24 h and 7 days; any other label looks back 1 h |
| RangeFilter.Keep | ChildSaftey/src/Screens/HistoryScreen.js:84-87 | the result is a subsequence of the input; every kept reading lies strictly between cutoff and now; every reading strictly inside appears in the result (exact counts are in RangeFilter.KeepCounts) |
| RangeFilter.KeepCounts | ChildSaftey/src/Screens/HistoryScreen.js:84-87 | each reading occurs in the result as often as in the input when it lies strictly inside the window, and never otherwise |
| RangeFilter.FilterByRange | ChildSaftey/src/Screens/HistoryScreen.js:66-88 | the result is a subsequence of the input whose readings all lie strictly inside (now - lookback(range), now), and each in-window reading occurs as often as in the input |
| RangeFilter.KeepIdempotent | ChildSaftey/src/Screens/HistoryScreen.js:84-87 | filtering twice equals filtering once |
| RangeFilter.KeepConcat | ChildSaftey/src/Screens/HistoryScreen.js:84-87 | filtering a concatenation is the concatenation of the filtered parts |
| RangeFilter.KeepAllIff | ChildSaftey/src/Screens/HistoryScreen.js:84-87 | the filter returns its input unchanged iff every reading lies in the window |
| RangeFilter.WiderKeepsMore | ChildSaftey/src/Screens/HistoryScreen.js:84-87 | a window with an earlier cutoff keeps a supersequence of what a later cutoff keeps |
| RangeFilter.RangesNest | ChildSaftey/src/Screens/HistoryScreen.js:70-87 | the last hour's readings are a subsequence of the last day's, and those of the last week's |
| Statistics.Min | ChildSaftey/src/Screens/HistoryScreen.js:99 | the minimum is one of the values and no value is below it |
| Statistics.Max | ChildSaftey/src/Screens/HistoryScreen.js:100 | the maximum is one of the values and no value is above it |
| Statistics.MeanBetween | ChildSaftey/src/Screens/HistoryScreen.js:97-98 | the mean of values within [lo, hi] lies within [lo, hi] |
| Statistics.Summarise | ChildSaftey/src/Screens/HistoryScreen.js:96-100 | for non-empty values: min <= average <= max, min and max are among the values and bound all of them, average = sum / count |
| Statistics.Calculate | ChildSaftey/src/Screens/HistoryScreen.js:90-107 | empty input gives {0, 0, 0}; otherwise min <= average <= max, min and max are values of the data and bound all of them, and average = sum / count |
| Statistics.ThreeReadings | ChildSaftey/src/Screens/HistoryScreen.js:90-107 | readings 19.0, 20.0 and 21.0 give average 20.0, min 19.0 and max 21.0 |
| History.Initial | ChildSaftey/src/Screens/HistoryScreen.js:22-29 | the initial screen shows no readings, with statistics matching them, and is not loading |
| History.Load | ChildSaftey/src/Screens/HistoryScreen.js:35-64 | decision table: non-empty remote data is shown unfiltered without reading storage; an empty or thrown remote call shows the filtered first storage read; a throw then a failed read leaves the screen unchanged; an empty result then a failed read reads storage once more; loading is false after every outcome |
| History.LoadPreservesConsistent | ChildSaftey/src/Screens/HistoryScreen.js:35-64 | after any load the statistics shown are those of the readings shown |
| History.LoadShowsOnlySources | ChildSaftey/src/Screens/HistoryScreen.js:35-64 | the readings shown are the non-empty remote data, a filtered storage read, or what was shown before |
| History.LoadAllConsistent | ChildSaftey/src/Screens/HistoryScreen.js:31-64 | over any series of range selections, each load finishing before the next starts, a consistent screen stays consistent and ends not loading |

## Left out

- Rendering, styles and the circular gauge geometry: presentation and floating-point drawing code.
- The 10-second `setInterval` polling loop and its cleanup: timer plumbing. A run of ticks is modelled as a sequence of inputs instead.
- `Alert.alert`, the push notification and dialling the emergency number: OS side effects. They become the step's `alert` flag, and whether they throw is an input.
- The `testAlert` button fires the same alert side effects directly, with no logic of its own.
- The random mock payload of the latest-reading fetch, and the API and storage modules behind `fetchHistoricalData` and `getStoredReadings`: none of them is part of this model. Their results are inputs.
- Home.Poll: `lastUpdate` and each window entry's time are the formatted `H:MM` clock string, taken as an opaque input. The payload's own timestamp is never read by the step and is not modelled.
- Statistics.Calculate: states the statistics before `toFixed(1)` rounding. The source reports each value rounded to one decimal place.
- RangeFilter.Lookback: the week lookback is fixed at 7 × 24 h. The source subtracts 7 calendar days in local time, which is 167 h or 169 h across a daylight-saving change. The hour and 24-hour lookbacks subtract absolute hours and are exact.
- RangeFilter.FilterByRange: reads the clock once. The source calls `moment()` separately for `now` and for the cutoff, a few milliseconds apart. Timestamps are integer milliseconds rather than the strings `moment` parses.
- History.Load: uses the same `now` for the filter in the else branch and in the catch path. A `null` or `undefined` remote result takes the same branch as an empty one, so it is modelled as `Ok([])`. A storage read that resolves `null` or `undefined`, or that holds a `null` entry, makes `data.filter` or `item.timestamp` throw inside the try before `setHistoricalData` runs; it behaves exactly like a thrown read and is modelled as `Err`.
- History.LoadAllConsistent: loads run one after another. In the source each range change starts a new load and nothing cancels the previous one, so overlapping loads can finish in either order: the screen may end up showing an older range's readings, and the first load to finish clears the loading flag while the other still runs. Each load still assigns readings and statistics together. Overlapping loads are not modelled.
- History.LoadPreservesConsistent: assumes `calculateStatistics` never throws, that is, every entry is a well-formed record and every list fits a spread call. The source calls it inside the `try`, after `setHistoricalData`. If it throws (a `null` entry makes `item.value` throw; a list longer than the engine's argument limit makes `Math.min(...values)` throw), the catch path runs while the new readings are already on screen. If the catch-path storage read then fails, the screen shows the new readings beside the previous statistics. On the empty-remote path, an over-long stored list fails the same way inside the inner try, which leaves the filtered readings beside the old statistics. History.Load's claim that non-empty remote data is shown without reading storage also rests on this assumption.
- Non-finite readings (NaN, infinities) and JavaScript number rounding: levels are exact reals.
- The settings screen, authentication context, profile screen and navigation wiring: storage plumbing and UI with no core logic.
