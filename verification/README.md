# RTM health report — Dafny model

`cgnx-rtm-health-report.py` fetches real-time media (RTP) flows for a site and
an application from a CloudGenix controller. It queries one hour-wide bucket at
a time, walking back `hoursOfdata` hours from a clock reading captured once. Each
flow item of a successful reply (embedded status 200) is judged on its maximum
packet loss, once per direction (server-to-client and client-to-server). The
script keeps five summary counters, writes a CSV detail row for every direction
that exceeds the loss threshold on a long enough call, and ends the file with a
summary trailer.

The model covers:

- `buckets.dfy` (`Buckets`): the bucket loop as a method over integer seconds.
  It is checked against a recursive reference schedule and a closed
  characterisation.
- `records.dfy` (`Records`): the flow item, the 18 report columns, the header
  line and the detail row, as typed cells.
- `output.dfy` (`Output`): the counters (`Tally`), the lines of the CSV file,
  and the file name together with the decimal rendering of the epoch.
- `classifier.dfy` (`Classifier`): the per-direction verdict and the counters
  and rows produced by one flow and by one bucket's items. It also holds the
  invariant that ties the file's rows to the counters (`Accounted`).
- `report.dfy` (`HealthReport`): what one bucket does (`BucketStep`) and what a
  run of buckets does (`Sweep`), stated on values. The class `Report` holds the
  script's global state: the five counters, the lines written, `flow_records`,
  and whether the trailer has been written. `Run` is the whole run; the bucket loop itself is `Report.QueryBuckets`.

Behaviour of the code that the model reproduces:

- On a failed fetch, `flow_records` is not reassigned (lines 243-248). The
  previous bucket's reply is therefore processed again: if its status was
  200, its items are counted once more for each failed fetch that follows. If the very first fetch fails, line 256 raises `NameError`.
  The model reports this as `crashed`: the file holds only the header and no
  trailer. So a failed bucket does not simply contribute zero rows; the
  model follows the code here.
- A flow that exceeds the threshold in both directions is written twice,
  as two identical rows.
- The window end is the clock plus `gmtminus` hours (line 125). The window
  start is `hoursOfdata` hours earlier (line 127), so the offset is added,
  never subtracted.

## Model

| member | source | states |
|---|---|---|
| `Buckets.BucketEnds` | cgnx-rtm-health-report.py:232-235 | The loop's bucket end times. The i-th end lies i+1 hours after the start, every end is at most the fixed epoch, and one more bucket would pass the epoch. The result equals the reference `Schedule`. |
| `Buckets.ScheduleIsSchedule` | cgnx-rtm-health-report.py:232-235 | The recursive reference schedule meets the same characterisation. |
| `Buckets.ScheduleLength` | cgnx-rtm-health-report.py:232-235 | A schedule holds floor((epoch - start) / 3600) buckets, and none when the epoch is before the start. |
| `Buckets.ScheduleIsUnique` | cgnx-rtm-health-report.py:232-235 | Only one sequence meets the characterisation, so the run's buckets are determined by start and epoch alone. |
| `Buckets.WindowSchedule` | cgnx-rtm-health-report.py:119-129 | With the start `hours` hours before the epoch, the loop runs exactly `hours` times (0 when `hours` is not positive), and the last bucket ends exactly at the epoch. |
| `Records.HeaderNamesColumns` | cgnx-rtm-health-report.py:229 | The header has 18 names, one per column, each column once, in the report's column order. |
| `Records.FlowRow` | cgnx-rtm-health-report.py:215-222 | The detail row has 18 cells, and its i-th cell is the value the i-th header column names. Header and rows agree field by field. |
| `Output.IntStringRoundTrip` | cgnx-rtm-health-report.py:135 | The decimal text of the epoch in the file name reads back as the same integer, negative values included. |
| `Output.FileNameIdentifiesRun` | cgnx-rtm-health-report.py:135 | For one site and application, two runs with different epochs get different file names. |
| `Classifier.Judge` | cgnx-rtm-health-report.py:269-297 | Exactly one of four outcomes: null loss gives no data; loss at or below `max_pl` is within the limit; a larger loss on a call no longer than `mincallduration` is too short; anything else is a violation. |
| `Classifier.FlowEffect` | cgnx-rtm-health-report.py:269-299 | For one flow item, `count` goes up by 1. A direction's LE counter goes up by 1 exactly when its loss is non-null and at most `max_pl`. Its G counter goes up by 1 exactly when its loss is above `max_pl` and the call is longer than `mincallduration`. In every other case (null loss, short call) neither counter of that direction changes. One identical row is written per exceeding direction, so a flow exceeding in both directions gives two rows. |
| `Classifier.ItemsAccounting` | cgnx-rtm-health-report.py:258-299 | For one bucket's items, `count` grows by their number and every counter only grows. The LE and G counters of each direction together grow by at most that number. The rows written are detail rows, exactly as many as the two G counters grew. |
| `Classifier.FlowKeepsAccounted` | cgnx-rtm-health-report.py:270-299 | One flow item keeps the invariant: header first, only detail rows after it, rows = `pls2cg3 + plc2sg3`, LE + G <= `count` for each direction. |
| `Classifier.ItemsKeepAccounted` | cgnx-rtm-health-report.py:258-299 | The items of a bucket keep the same invariant. |
| `HealthReport.DefaultsQueryFourBuckets` | cgnx-rtm-health-report.py:32-47 | With the script's input variables (`hoursOfdata = 4`, `gmtminus = 5`), a run queries exactly four buckets for any clock reading, and the last ends at the window end. |
| `HealthReport.StatusGate` | cgnx-rtm-health-report.py:256-258 | A successful reply becomes `flow_records`. With status 200, `count` grows by exactly its number of items. Any other status, or an empty item list, leaves the counters and the file unchanged. |
| `HealthReport.FailedFetchReplaysLast` | cgnx-rtm-health-report.py:243-256 | After an earlier success, a failed fetch has the same effect as receiving the previous reply again. |
| `HealthReport.SweepFailsOnlyOnFirstBucket` | cgnx-rtm-health-report.py:243-256 | From the initial state, the run dies with `NameError` exactly when its first fetch fails. After any bucket that did not fail, `flow_records` is bound. |
| `HealthReport.SweepStaysFailed` | cgnx-rtm-health-report.py:256 | Once a prefix of the buckets has died with `NameError`, the whole run has: nothing runs after the exception. |
| `HealthReport.SweepKeepsAccounted` | cgnx-rtm-health-report.py:232-299 | Every sequence of buckets keeps the invariant between file rows and counters. |
| `HealthReport.Report.constructor` | cgnx-rtm-health-report.py:228-229 | The file starts with the header line, all counters are 0, and no flow records are bound. |
| `HealthReport.Report.JudgeDirection` | cgnx-rtm-health-report.py:270-297 | One direction's block (the s2c and c2s blocks are the same code): the counters move as `DirectionStep` says for the direction's verdict, and the file gains the flow's row exactly on a violation. |
| `HealthReport.Report.HandleFlow` | cgnx-rtm-health-report.py:259-299 | The s2c block, then the c2s block, then `count += 1`. The counters move as `FlowTally` says, and the file gains exactly `FlowLines`. The class invariant is kept, and `flow_records` is unchanged. |
| `HealthReport.Report.HandleItems` | cgnx-rtm-health-report.py:258-299 | The item loop: the counters move as `ItemsTally` says, the file gains exactly `ItemsLines`, and the invariant holds throughout. |
| `HealthReport.Report.HandleResponse` | cgnx-rtm-health-report.py:243-299 | One bucket: the new state is the one `BucketStep` gives. On `NameError`, it reports the crash and changes nothing. |
| `HealthReport.Report.QueryBuckets` | cgnx-rtm-health-report.py:232-299 | The bucket loop over the fixed end times. If it completes, every end was queried and the state is `Sweep`'s. If it stops at a `NameError`, the ends queried are a prefix, the state is the one before the failing bucket, and the whole sweep fails. |
| `HealthReport.Report.Finish` | cgnx-rtm-health-report.py:303-306 | Appends one trailer line carrying the final counters and the minimum call duration. Nothing else changes. |
| `HealthReport.Run` | cgnx-rtm-health-report.py:119-306 | The file is named from site, application and epoch. The buckets queried are the schedule from window start to window end. The run crashes exactly when `Sweep` does, and then only the first bucket was queried and only the header was written. Otherwise the counters, `flow_records` and rows are those of `Sweep` over all buckets, followed by the trailer. |

## Left out

- Argument parsing and logging setup (lines 66-102): configuration only.
- SDK session, token login and the undefined `throw_error` on a failed login (lines 108-152): calls into a library that is not part of this model.
- Site and application name-to-ID lookups (lines 160-177): calls into `cloudgenix_idname`, which is not part of this model. The `KeyError` they raise on an unknown name (after the file is created, before the header is written) is not modelled.
- The POST body and the `flows_monitor` call (lines 237-240): network I/O. The reply for each bucket end time is the parameter `respond` of `Run`.
- Clock reads and local-time formatting (`utcnow`, `time.time`, `strftime`/`localtime`, lines 122-125, 199-201, 233, 301, 307): the clock is the parameter `clockSeconds`, and times stay integers.
- Rendering of cells to text (`json.dumps`, `str`, `/ 1000` for seconds, lines 186-206 and 215-222): a row is a sequence of typed cells.
- Console prints and log lines (lines 123, 209-214, 234, 248, 276-277, 290-292, 309-313), including the dump of the error body on a failed fetch (line 248).
- Replies and flow items are assumed well-formed: a successful reply carries `_status_code` and `flows.items`, losses are numbers and never NaN, and the ms timestamps are integers. The exceptions the script raises otherwise are not modelled. These are the `KeyError` on lines 256 and 258, and the `ValueError` on lines 265-266 and on lines 271 and 285. Each would end the run in the middle of a bucket, with no trailer; at line 285 the s2c block has already updated its counter and perhaps written its row. A NaN loss, which fails `<= max_pl` and so counts as a violation on a long enough call, cannot be represented by `real`.
- HealthReport.Report.Finish: the trailer's "Total Query Time" (elapsed wall-clock time, line 307) and its wording are not modelled; the trailer line carries only the counters and the minimum call duration.
- Fields read but unused on lines 259-264 (`app_id`, average losses, media type), and the `KeyError` a missing field would raise.
- The status test `str(json_status) == '200'` (line 257) is modelled as an integer status equal to 200. A status sent as the string "200" also passes in the script.
