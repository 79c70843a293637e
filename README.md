# Oura stress monitor: the decision step, verified

`checkStressLevels` (in `index.js`) is a scheduled job. It fetches today's
daily-stress summary from the Oura API. It aborts when the request fails or
returns no data. It then reads the first record's `stress_high`,
`recovery_high` and `day_summary`, and sends a Pushover notification when
stress exceeds recovery by more than 1800 seconds or when the day is
classified `"stressful"`. The message reports the difference rounded to
whole minutes.

This project models that decision as pure Dafny functions and proves what it
promises:

- `Wrappers.dfy` holds the `Option` type.
- `JsNumbers.dfy` holds the slice of JavaScript number semantics the job
  relies on. Numbers are integers or NaN, with subtraction, `>` against a
  constant, `Math.round(d / 60)` and the decimal text that a template literal
  prints.
- `StressMonitor.dfy` holds the payload shapes, the trigger rule, the
  notification message and `Check`. `Check` maps a fetch result and the
  formatted local time to `Aborted(reason)`, `NoNotification` or
  `Notify(minutes, request)`.
- `StressRules.dfy` holds the properties of a run, stated over its inputs.

The fetch is a value. `FetchFailed` covers transport errors and a 2xx body
that is not JSON. `Response(status, body)` covers every other response. The
formatted local time (`h:mm a` in America/Chicago) is an opaque string
parameter. The Pushover call is represented by the request it would receive:
title, message and priority. Credentials are not part of it.

JavaScript behaviour kept on purpose:

- A missing (`undefined`) `stress_high` or `recovery_high` is not treated as
  missing data (index.js:72-74). The difference is NaN and the decision goes
  on. NaN never exceeds the threshold, so only the day summary can trigger.
  The message then says "NaN minutes".
- A `null` field is subtracted as 0.
- A `null` first element passes the optional chaining on lines 72-73. Line 75
  has no optional chaining, so reading `day_summary` raises a TypeError.
  That is `Aborted(RecordNotObject)`.
- `Math.round` sends halves toward +infinity (30 s gives 1, -30 s gives 0).
  Over integers it equals `floor((2d + 60) / 120)`.
- A non-ok Pushover response is only logged, not raised (index.js:53-57).

## Model

| member | source | states |
|---|---|---|
| `JsNumbers.Sub` | index.js:74 | the difference is NaN exactly when an operand is NaN; otherwise adding the subtrahend back gives the minuend |
| `JsNumbers.GreaterThan` | index.js:82 | a comparison with NaN is false; for a number, `a > k` holds exactly when `a - k` is positive |
| `JsNumbers.RoundDiv60` | index.js:80 | `Math.round(d / 60)` is the m with 60m - 30 <= d < 60m + 30 |
| `JsNumbers.RoundDiv60Unique` | index.js:80 | no other integer satisfies that window, so the rounding is determined |
| `JsNumbers.RoundDiv60Nearest` | index.js:80 | no multiple of 60 is closer to d; on a tie the larger candidate is chosen (halves round toward +infinity) |
| `JsNumbers.RoundMinutes` | index.js:80 | Math.round keeps NaN as NaN and otherwise lands within 30 s of 60 times its result |
| `JsNumbers.RoundingExamples` | index.js:80 | 30 s gives 1, -30 s gives 0, 90 s gives 2, -90 s gives -1, 5400 s gives 90, 3661 s gives 61 |
| `JsNumbers.NatToDecimal` | index.js:84 | a number prints as a non-empty string of digits without a leading zero |
| `JsNumbers.DecimalRoundTrip` | index.js:84 | reading the printed digits back gives the number |
| `JsNumbers.ToString` | index.js:84 | NaN prints as "NaN"; exactly the negative numbers print with a leading '-' |
| `JsNumbers.ParseToString` | index.js:84 | every printed number, NaN and negatives included, reads back as itself |
| `JsNumbers.ToStringInjective` | index.js:84 | two numbers that print alike are equal |
| `StressMonitor.ToNumber` | index.js:72-74 | an undefined field becomes NaN and nothing else does; a null field counts as 0, a number as itself |
| `StressMonitor.IsOk` | index.js:26 | `response.ok` holds exactly for statuses in the 2xx class |
| `StressMonitor.HasRecord` | index.js:68-75 | a readable first record implies a 2xx response with a non-empty `data` list; on such a response there is a record exactly when `data[0]` is an object, whatever its fields hold |
| `StressMonitor.FirstRecord` | index.js:72-75 | the record read is `data[0]`: the list is that record followed by entries that are never read |
| `StressMonitor.ShouldNotify` | index.js:82 | a "stressful" summary always triggers; no trigger exactly when the difference is NaN or at most 1800 s and the summary is not "stressful" |
| `StressMonitor.Difference` | index.js:72-74 | the stress-recovery difference is a number exactly when neither field is missing |
| `StressMonitor.AbortReason.Text` | index.js:27-69 | the program writes its own message only for a non-ok status and for missing data, the latter being "No stress data available!" |
| `StressMonitor.NotificationMessage` | index.js:84-85 | the message starts with "It's ", the formatted time and " and your stress-recovery difference is ", ends with " minutes." and the closing sentence, and its length is that of the fixed text, time and printed minutes together |
| `StressMonitor.MessageShowsMinutes` | index.js:84 | the printed minutes sit right after "...difference is " in the message |
| `StressMonitor.MessageDeterminesMinutes` | index.js:84 | for a given time, the message determines the minutes it reports |
| `StressMonitor.Decide` | index.js:72-87 | a read record never aborts; it notifies iff the trigger rule holds, with the rounded difference, the title "Oura Stress Monitor" and priority 1 |
| `StressMonitor.Check` | index.js:64-92 | a run aborts iff no first record could be read; transport and HTTP failures abort with their own reasons; a null `data[0]` is exactly the case that aborts with `RecordNotObject`; otherwise the first record decides |
| `StressRules.NotifyRule` | index.js:82 | with both fields present, a notification is sent iff stress - recovery > 1800 or the summary is "stressful" |
| `StressRules.ThresholdIsStrict` | index.js:7 | a difference of exactly 1800 s on a non-stressful day sends nothing |
| `StressRules.QuietAtOrBelowThreshold` | index.js:82 | a difference of at most 1800 s on a non-stressful day sends nothing |
| `StressRules.StressfulAlwaysNotifies` | index.js:82 | a "stressful" day notifies whatever the fields hold, including zero, negative or missing values |
| `StressRules.LargeDifferenceAlwaysNotifies` | index.js:82 | a difference above 1800 s notifies whatever the day summary is |
| `StressRules.MissingFieldLeavesOnlySummary` | index.js:72-82 | with a field missing, only "stressful" triggers, and the message reports NaN minutes; any other summary ends the run with no notification, not an abort |
| `StressRules.NullFieldCountsAsZero` | index.js:74 | a null field behaves exactly like 0 seconds |
| `StressRules.NoDataAborts` | index.js:68-69 | a falsy body, or a missing or empty `data` list, aborts with "No stress data available!" |
| `StressRules.RecordNeverAborts` | index.js:72-87 | a 2xx response whose `data[0]` is an object never aborts, whatever the record's fields hold |
| `StressRules.NullFirstEntryAborts` | index.js:72-75 | a null `data[0]` aborts with `RecordNotObject` (line 75's TypeError), not with "No stress data available!" |
| `StressRules.FailedFetchAborts` | index.js:26-27 | a failed request or a non-2xx status aborts before any decision, with "HTTP error! status: N" for a status |
| `StressRules.NotifyNeedsRecord` | index.js:66-75 | a notification implies a 2xx response whose `data` list starts with an object |
| `StressRules.OnlyFirstRecordMatters` | index.js:72-75 | records after `data[0]` never change the outcome |
| `StressRules.OnlyDifferenceAndSummaryMatter` | index.js:74-82 | two records with the same difference and summary lead to the same outcome |
| `StressRules.DecisionIgnoresTime` | index.js:77-82 | whether the run aborts or notifies does not depend on the time of day |
| `StressRules.NotifiedMinutesAreRounded` | index.js:80 | the notified minutes are the difference rounded to the nearest minute, with no multiple of 60 closer |
| `StressRules.NinetyMinuteScenario` | index.js:80-84 | 7200 s against 1800 s on a normal day notifies with 90 minutes, and the message contains "90" |
| `StressRules.StressfulScenario` | index.js:82 | 1000 s against 900 s on a stressful day notifies, reporting 2 minutes |

## Left out

- The HTTP requests to Oura and Pushover (index.js:14-62) are network I/O through `node-fetch`. The Oura request is a `FetchResult` value. The Pushover request is the `Notification` it would receive. Whether delivery succeeds is not modelled: a non-ok Pushover response is only logged, and a thrown send error comes after the decision.
- `getLocalDate`, the query date and the `h:mm a` formatting (index.js:9-12, 77-78) are clock and time-zone calls into Luxon. The formatted time is an opaque string parameter.
- Reading environment variables (index.js:4-6) and the console logging and re-throw wrappers (index.js:31-33, 88-91) are ambient I/O. An abort is the `Aborted` outcome; its log lines are not modelled.
- JSON values of other types in `stress_high`, `recovery_high`, the entries of `data`, or `data` itself are not modelled: non-integral numbers, strings, booleans and arrays. Fields are missing, null or an integer.
- `JsNumbers.RoundDiv60`: numbers are unbounded integers. This agrees with JavaScript doubles only below 2^53 in magnitude. At that size `d / 60` cannot be rounded across a half, and `String` does not switch to exponent notation.
- Error messages raised by the runtime (transport errors, JSON parse errors, the TypeError for a null record) are not modelled; `AbortReason.Text` gives None for them.
