# Satellite alerter: the windowed breach-counting fold

This project models the core of `SatelliteAlerter`. The program reads satellite telemetry lines of the form
`timestamp|satellite id|red high limit|…|…|red low limit|raw value|component` (the fourth and fifth fields, indices 3 and 4, are not used). It counts, per
satellite, readings below the red low limit and readings above the red high limit that fall within a
five-minute window. It registers one `RED LOW` or `RED HIGH` alert for a satellite when the matching count
reaches three, and at end of input it prints the alerts as one JSON array.

The model is a pure state machine:

- `JavaNumbers` holds the two Java types the logic depends on. The breach counters are Java `byte`s, so
  `++` wraps from 127 to -128. The raw value is a `double`, which can be an infinity or NaN, and is only
  compared strictly with an `int` limit.
- `Telemetry` holds the vocabulary. An `Instant` is a `LocalDateTime`: either a point on a nanosecond time
  line, or one of the `MIN`/`MAX` sentinels. It also holds the constants (a 5-minute window, a trigger
  threshold of 3, the severity labels) and the input `Record`. A record's numeric fields are `None` when
  they fail to parse.
- `Alerter` holds the loop state and the steps. `OpenWindow` covers lines 125-143, `CountBreaches` lines
  163-188 and `RegisterAlerts` lines 190-216. `Tally` is lines 145-218 and `Step` is one pass of the loop.
  `Process` folds `Step` over the records. `Run` adds the final flush (lines 222-233) and returns the
  arrays printed. `RunAlerter` is the same loop written as a `while`.
- `Reference` is an independent description over the whole input. `BreachCount` counts a satellite's
  admitted breaches in the window opened by the first record. `ThirdBreach` is the record at which that
  count first reached three. The theorems state that the fold's counters and alerts are exactly these,
  and that the single printed array holds exactly the reference alerts.
- `FoldProperties` holds consequences for the whole run: alerts only grow, and ignored records change
  nothing.
- `Scenarios` works through concrete inputs.

Behaviour the code has and the model keeps. The program's own comments promise more: line 124 says a
new 5-minute window is created "each time" the condition holds, and lines 159-162 speak of breaches
"within a five minute interval" as if every interval were watched. The model follows the code.

- The window never rolls over. `start`/`end` begin as `LocalDateTime.MAX`/`MIN` (line 81), so the test at
  line 125 holds only for the first record whose timestamp is valid. That record fixes `[t0, t0 + 5 min)`
  for the rest of the run. Later records at or after `end` are ignored. They do not open a new window.
- The branch at line 125 is entered only at the first record whose timestamp is valid, and at that point
  both maps are still empty. So the flush inside it (lines 129-141), which needs a pending alert, never
  runs. `Consistent` records this, and `Process` keeps it. Output happens at most once, at end of input.
- A record with a valid timestamp but unparseable numbers still opens the window. It does nothing else.
- Counters are keyed by satellite only. The component field is never examined. It is only copied into
  the alert.
- A satellite's first breach creates its counter pair without setting the "incremented" flag. A first
  record that breaches both limits (possible only with inverted limits) yields the pair (1, 1).
- Alerts fire when an existing counter is incremented to exactly 3. A key that already has an alert is
  never overwritten, even when the byte counter wraps back to 3 after 256 more breaches.

## Model

| member | source | states |
|---|---|---|
| JavaNumbers.ByteIncrement | src/main/java/com/cotton/corey/SatelliteAlerter.java:170-182 | a counter's `++` adds one below 127 and wraps 127 to -128; the result is always congruent to b+1 modulo 256 |
| JavaNumbers.ByteOfCount | src/main/java/com/cotton/corey/SatelliteAlerter.java:72-72 | the byte a counter holds after n increments from zero equals n up to 127 and is congruent to n modulo 256 |
| JavaNumbers.ByteIncrementOfCount | src/main/java/com/cotton/corey/SatelliteAlerter.java:170-186 | incrementing the byte for n gives the byte for n+1, so a counter tracks its breach count modulo 256 |
| JavaNumbers.ByteOfCountPeriodic | src/main/java/com/cotton/corey/SatelliteAlerter.java:170-182 | a counter returns to the same byte value every 256 increments, so it reads 3 again after the 259th breach |
| JavaNumbers.LessThan | src/main/java/com/cotton/corey/SatelliteAlerter.java:166-166 | Java's `rawValue < redLowLimit` with the `int` widened to `double`: false for NaN and for positive infinity, true for negative infinity, the order of the reals for a finite value |
| JavaNumbers.GreaterThan | src/main/java/com/cotton/corey/SatelliteAlerter.java:178-178 | Java's `rawValue > redHighLimit`: holds exactly when the negated value is below the negated limit, and never together with `<` at the same limit |
| JavaNumbers.ComparisonTrichotomy | src/main/java/com/cotton/corey/SatelliteAlerter.java:166-178 | a value other than NaN is below, above or equal to a limit, in exactly one way; NaN is none of these |
| JavaNumbers.NaNBreachesNeither | src/main/java/com/cotton/corey/SatelliteAlerter.java:166-178 | a NaN raw value is neither below the low limit nor above the high limit, whatever the limits |
| JavaNumbers.BothSidesOnlyWhenLimitsInverted | src/main/java/com/cotton/corey/SatelliteAlerter.java:166-178 | a raw value can breach both limits only when the low limit exceeds the high one, and then it is not NaN |
| Telemetry.IsBefore | src/main/java/com/cotton/corey/SatelliteAlerter.java:145-145 | `isBefore` follows the nanosecond time line, with `LocalDateTime.MIN` before and `MAX` after every other instant |
| Telemetry.IsAfter | src/main/java/com/cotton/corey/SatelliteAlerter.java:125-125 | `isAfter` holds on distinct instants exactly when `isBefore` does not, and never on equal ones |
| Telemetry.IsBeforeStrictTotalOrder | src/main/java/com/cotton/corey/SatelliteAlerter.java:125-145 | `isBefore` on instants, including the MIN/MAX sentinels, is irreflexive, asymmetric, total and transitive |
| Telemetry.SeverityLabel | src/main/java/com/cotton/corey/SatelliteAlerter.java:52-53 | the JSON severity is "RED LOW" exactly for the low alert and "RED HIGH" exactly for the high alert |
| Alerter.AwaitingFirstRecord | src/main/java/com/cotton/corey/SatelliteAlerter.java:125-125 | the test `startDateTime.isAfter(endDateTime)` holds for the initial MAX/MIN bounds and fails for every opened window |
| Alerter.InWindow | src/main/java/com/cotton/corey/SatelliteAlerter.java:145-145 | on an opened, non-empty window the test (equal to start, or after start and before end) is the half-open interval [start, end); while start is still MAX no instant passes |
| Alerter.Admits | src/main/java/com/cotton/corey/SatelliteAlerter.java:145-157 | a record is counted only when it passes the window test and all four numeric fields parse; before the window opens nothing is counted |
| Alerter.AlertObject | src/main/java/com/cotton/corey/SatelliteAlerter.java:131-135 | an alert's JSON object carries the key's satellite id, "RED LOW" exactly for a low alert and "RED HIGH" exactly for a high one, and the payload's component and timestamp |
| Alerter.Entries | src/main/java/com/cotton/corey/SatelliteAlerter.java:130-136 | every alert key yields a JSON object with its satellite, severity label, component and timestamp; every object comes from some key; no alerts gives no objects |
| Alerter.AlertObjectInjective | src/main/java/com/cotton/corey/SatelliteAlerter.java:131-135 | two alerts print the same JSON object only if they have the same key and payload |
| Alerter.EntriesCardinality | src/main/java/com/cotton/corey/SatelliteAlerter.java:130-137 | an alert map yields exactly as many JSON objects as it has keys |
| Alerter.PrintedAlertsOnceDeterminesArray | src/main/java/com/cotton/corey/SatelliteAlerter.java:130-138 | the conditions Emit and FinalFlush promise leave one possible printed array: the earlier output array plus the alerts' objects |
| Alerter.Emit | src/main/java/com/cotton/corey/SatelliteAlerter.java:130-138 | a flush prints exactly one more array: the earlier output array, all of it kept, plus one object per alert key, each added once, nothing else; the output array keeps what was printed; window, counters and alerts are untouched |
| Alerter.OpenWindow | src/main/java/com/cotton/corey/SatelliteAlerter.java:124-143 | while the bounds are still the MAX/MIN sentinels, the window becomes [t, t + 5 min) and is open afterwards; once open it is never changed; with no pending alerts nothing is printed |
| Alerter.CountBreaches | src/main/java/com/cotton/corey/SatelliteAlerter.java:163-188 | only the reading's satellite changes; a low breach increments its low counter and a high breach its high counter, independently; a first breach creates the pair with the breached counters at 1; a non-breaching reading changes nothing; the flags are set exactly when an existing counter was incremented |
| Alerter.RegisterAlerts | src/main/java/com/cotton/corey/SatelliteAlerter.java:190-216 | no existing alert is replaced; new alerts belong to the reading's satellite and carry its payload; a severity's alert is added exactly when its counter was incremented to 3 and no alert of that key exists |
| Alerter.Tally | src/main/java/com/cotton/corey/SatelliteAlerter.java:145-218 | a record outside [start, end) or with unparseable numbers leaves the state unchanged; counting never moves the window or prints |
| Alerter.Step | src/main/java/com/cotton/corey/SatelliteAlerter.java:124-218 | one record: the first opens [t, t + 5 min) and later ones never move it; unadmitted records are no-ops; only the record's satellite's counters and alert keys change; counters move independently; an alert appears exactly when an existing counter is incremented to 3; alerts are never replaced; consistency is preserved |
| Alerter.Process | src/main/java/com/cotton/corey/SatelliteAlerter.java:92-220 | after the loop the window is [first timestamp, first timestamp + 5 min), or still unopened exactly when there were no records; nothing has been printed inside the loop |
| Alerter.FinalFlush | src/main/java/com/cotton/corey/SatelliteAlerter.java:222-233 | at end of input, with no alerts nothing happens; otherwise exactly one more array is printed holding the earlier output array, all of it kept, plus one object per alert key and nothing else; counters and alerts stay as they were |
| Alerter.Run | src/main/java/com/cotton/corey/SatelliteAlerter.java:92-233 | a run prints at most one array; it prints one exactly when some alert was registered, and that array holds one object per alert key |
| Alerter.RunAlerter | src/main/java/com/cotton/corey/SatelliteAlerter.java:92-233 | the imperative read loop prints what the fold `Run` prints, and at most one array |
| Reference.BreachCountMonotone | src/main/java/com/cotton/corey/SatelliteAlerter.java:166-188 | the admitted breach count of any satellite and severity never decreases as more of the input is read |
| Reference.ThirdBreach | src/main/java/com/cotton/corey/SatelliteAlerter.java:197-216 | a third-breach payload exists exactly when the satellite has at least three admitted breaches of that severity |
| Reference.StepCountsMatch | src/main/java/com/cotton/corey/SatelliteAlerter.java:163-188 | one step keeps a satellite's counter pair equal to its wrapped admitted low and high breach counts, and present exactly when either count is positive |
| Reference.StepAlertMatches | src/main/java/com/cotton/corey/SatelliteAlerter.java:197-216 | one step keeps each alert key present exactly when its satellite has three or more breaches, carrying the third breach's payload |
| Reference.StepMatchesReference | src/main/java/com/cotton/corey/SatelliteAlerter.java:124-218 | one step preserves agreement of all counters and alerts with the reference |
| Reference.ProcessMatchesReference | src/main/java/com/cotton/corey/SatelliteAlerter.java:124-216 | after any non-empty input, counters are the wrapped admitted breach counts in the window opened by the first record, and alerts are exactly the keys with three or more breaches, each carrying its third breach |
| Reference.ThirdBreachIsThirdReading | src/main/java/com/cotton/corey/SatelliteAlerter.java:201-215 | the alert's payload is the component and timestamp of the record that brought the breach count to exactly three |
| Reference.RunReportsReferenceAlerts | src/main/java/com/cotton/corey/SatelliteAlerter.java:222-233 | a run prints nothing exactly when no key reached three breaches; otherwise its single array holds exactly the reference alerts, each once |
| FoldProperties.ProcessAlertsOnlyGrow | src/main/java/com/cotton/corey/SatelliteAlerter.java:203-216 | every alert registered after a prefix of the input is still there, unchanged, after the whole input |
| FoldProperties.IgnoredRecordChangesNothing | src/main/java/com/cotton/corey/SatelliteAlerter.java:145-157 | a record before the window start, at or after its end, or with unparseable numbers leaves counters and alerts unchanged |
| FoldProperties.AlertIsNeverReplaced | src/main/java/com/cotton/corey/SatelliteAlerter.java:201-207 | once a key is alerted, no continuation of the input removes or overwrites it |
| Scenarios.FirstLowBreach | src/main/java/com/cotton/corey/SatelliteAlerter.java:166-176 | a satellite's first low reading creates its counters at (1, 0) and raises nothing |
| Scenarios.SecondLowBreach | src/main/java/com/cotton/corey/SatelliteAlerter.java:166-172 | a second low reading increments the low counter to 2 and raises nothing |
| Scenarios.ThirdLowBreachAlerts | src/main/java/com/cotton/corey/SatelliteAlerter.java:197-213 | the third low reading at 00:02 raises one RED LOW alert carrying its component and timestamp |
| Scenarios.FourthLowBreachIsSilent | src/main/java/com/cotton/corey/SatelliteAlerter.java:201-203 | a fourth low reading at 00:03 leaves the single alert as it was |
| Scenarios.RunWithOneAlert | src/main/java/com/cotton/corey/SatelliteAlerter.java:222-233 | a run ending with one alert prints one array holding exactly that alert's object |
| Scenarios.FourLowBreachesPrintOneAlert | src/main/java/com/cotton/corey/SatelliteAlerter.java:222-233 | four low readings print one array with a single RED LOW object timestamped at the third reading |
| Scenarios.LaterWindowIsNeverOpened | src/main/java/com/cotton/corey/SatelliteAlerter.java:124-145 | three high readings from 00:06 on, after a window opened at 00:00, are ignored and nothing is printed |
| Scenarios.DoubleBreachAndNaN | src/main/java/com/cotton/corey/SatelliteAlerter.java:166-188 | a reading under inverted limits increments both counters; a NaN reading increments neither |

## Left out

- Command-line handling and file reading (lines 84-92 and 236-239) are I/O. The model starts from the
  sequence of lines whose timestamp is valid.
- Splitting a line on `|`, the field-count check and timestamp validation (lines 94-122) are not modelled.
  They rely on Java's `split`, regular expressions and `LocalDateTime.of` calendar checks. A `Record` is a
  line whose timestamp already passed them, reduced to a point on the nanosecond time line.
- Parsing of the numeric fields (lines 148-151) is reduced to "parsed or not". This includes
  `Integer.parseInt` range checks and the rounding of decimal text by `Double.parseDouble`. The model
  receives the parsed values.
- Rendering a timestamp as text (`toString().replace(".000000", ".") + "Z"`, lines 212 and 215) depends
  on the Java library. The alert payload keeps the timestamp as the instant itself.
- JSON construction and printing through `parallelStream` (lines 130-138 and 224-232) are serialisation
  and concurrency. The order of objects in the printed array is not modelled: arrays are multisets.
- Alerter.Run and Reference.RunReportsReferenceAlerts describe the sequential outcome of the flush: they
  assume the `outputArray.put` calls made from `parallelStream().forEach` (lines 130-137 and 224-231) do
  not race. `JSONArray` appends to an unsynchronised list, so with two or more alerts the real program
  may lose an object or print an empty slot. It may also throw an index exception that escapes `main`,
  since only `IOException` is caught (line 236), and then print nothing. The model does not cover these
  interleavings.
- The diagnostic messages printed for skipped lines (lines 98, 105, 120, 154) are not modelled.
- Alerter.InWindow states the half-open reading only for a non-empty window. With `end <= start` the source's test
  would still admit a record at exactly `start`, but no reachable state has such a window.
