# Broker report: daily, weekly and monthly loan totals

This project models the `broker_report` view of the invoice-statement service
(operations/views.py). For one broker, the view does the following:

- It rejects a request without a broker name.
- It turns the per-settlement-date loan totals of that broker into "Daily" rows.
- It sorts the Daily rows by date.
- It makes one forward pass with two accumulators, weekly and monthly. Each
  accumulator holds a bucket start date and an insertion-ordered dict of
  bucket totals.
- It answers with the Daily rows, then one "Weekly" row per weekly dict
  entry, then one "Month" row per monthly dict entry.

Each accumulator follows a three-way rule on the gap between the bucket
start and the day being added. The weekly width is 7 days and the gap is the
absolute day difference. The monthly width is 1 and the gap comes from
`diff_dates_month`. The three cases are:

- **Gap below the width.** The day's amount is added in place to the entry
  keyed `str(start)`.
- **Gap equal to the width.** A key `"<start>-<date>"` is appended. It holds a
  copy of the running total. The day's own amount goes nowhere, and the start
  does not move.
- **Gap above the width.** The day becomes the new start. It is stored under
  the date object itself, not its string.

Later lookups read `str(start)`. So a day that falls inside, or exactly
closes, a bucket opened by a jump raises KeyError. An empty query never binds
the two dicts, so the first output loop fails on an unbound name.

## Files

| file | module | contents |
|---|---|---|
| `results.dfy` | `Results` | `Option` and `Result` |
| `py_dict.dfy` | `PyDict` | a Python dict as a sequence of (key, value) pairs, with lemmas for reading, assigning and the key order |
| `broker_report.dfy` | `BrokerReport` | the data model, the specification functions (`DailyRows`, `SortByDate`, `Step`, `StepBoth`, `Run`, `BucketRows`, `Report`), and the imperative view (`BrokerReportView` with its loops) proved equal to `Report` |
| `bucket_properties.dfy` | `BucketProperties` | the properties of one step, of a whole pass and of the report |
| `report_examples.dfy` | `ReportExamples` | two worked passes over concrete days |

How values are represented:

- Dates are day ordinals (`int`) and amounts are exact `real`s.
- A dict key is `StrDate(d)` (`str(date)`), `DateObj(d)` (the date object) or
  `Range(s, d)` (`"<s>-<d>"`). The three kinds never compare equal, just as a
  Python string never equals a `date`.
- `diff_dates_month` is the parameter `monthGap: (int, int) -> int`. Every
  property is proved for any such function. `MonthlyZeroGap` gives the
  consequences of a function that always returns 0.

Three behaviours of the code worth stating:

- An empty query fails on the unbound dicts; there is no answer with empty
  weekly and monthly lists.
- A new bucket is keyed by the date object, and `str(date)` is never written
  for it.
- A gap of exactly 7 does not reset the weekly start. So over days 0, 7 and
  10, day 10 is 10 days from the start (day 0) and opens a new bucket.
  `WeeklyExample` states this pass.

## Model

| member | source | states |
|---|---|---|
| PyDict.Get | operations/views.py:203-206 | `d[k]`: the value of the first pair keyed `k`, or nothing where Python raises KeyError |
| PyDict.Set | operations/views.py:202-209 | `d[k] = v` and `d[k] += x`: replaces the value of the pair keyed `k` where it stands, or appends `(k, v)` when `k` is new |
| PyDict.KeysAt | operations/views.py:224-241 | `.items()` visits one key per pair, and the i-th key visited is the key of the i-th pair |
| PyDict.GetFindsKey | operations/views.py:203-206 | `d[k]` gives a value exactly when `k` is a key of `d`, and the value read is the one stored beside `k` |
| PyDict.SetShape | operations/views.py:202-209 | `d[k] = v` keeps the key order when `k` is present, and appends `(k, v)` at the end when it is not |
| PyDict.GetAfterSet | operations/views.py:206 | after `d[k] = v`, reading `k` gives `v` and reading any other key gives what it gave before |
| PyDict.KeysAfterSet | operations/views.py:208 | after `d[k] = v` the keys are exactly the old keys plus `k` |
| BrokerReport.DailyRow | operations/views.py:181-188 | the row `{Broker: name, Date: item.Date, Total Loan Amount: item.total_loan_amount, Period: "Daily"}` of one query result |
| BrokerReport.DailyRows | operations/views.py:178-188 | one row per query result, in query order, each with the requested broker, period Daily, the result's date object and its total |
| BrokerReport.CollectDailyRows | operations/views.py:178-188 | the append loop builds exactly `DailyRows` |
| BrokerReport.Insert | operations/views.py:189 | inserting adds exactly one row: the result is the old rows plus `x` as a multiset |
| BrokerReport.InsertKeepsSorted | operations/views.py:189 | inserting into date-sorted rows gives date-sorted rows |
| BrokerReport.SortByDate | operations/views.py:189 | `sorted(..., key=Date)` returns a permutation of its input that is ascending by date |
| BrokerReport.Init | operations/views.py:191-197 | the state of one accumulator after the first day: start = first date, dict `{str(first date): first amount}` |
| BrokerReport.Step | operations/views.py:200-209 | one accumulator block for one day: gap = width snapshots `str(start)` under `"<start>-<date>"`; gap < width adds the amount to `str(start)`; otherwise the day becomes the start under its date object; a missing `str(start)` is a KeyError on that key |
| BrokerReport.StepBoth | operations/views.py:199-222 | one loop iteration: the weekly block with gap `abs(start - date)` and width 7, then the monthly block with gap `monthGap(start, date)` and width 1; a KeyError in the weekly block stops before the monthly one |
| BrokerReport.Run | operations/views.py:191-222 | both accumulators after the first `n` sorted rows, or the first KeyError with its series and key |
| BrokerReport.Report | operations/views.py:171-243 | the view's answer: BrokerRequired for a missing or empty name, the unbound-dict failure for an empty query, the first KeyError, or the Daily rows sorted by date followed by one Weekly row per weekly entry and one Month row per monthly entry |
| BrokerReport.RunFailureStays | operations/views.py:199-222 | once a KeyError is raised, the pass over any longer prefix ends in that same error |
| BrokerReport.Advance | operations/views.py:200-209 | one accumulator block does what `Step` specifies: a snapshot under the range key, an in-place add, or a new start keyed by the date object, and KeyError `str(start)` when that key is missing |
| BrokerReport.Bucketize | operations/views.py:191-222 | the initialisation and the forward loop give exactly `Run` over all rows: both accumulators, or the first KeyError with its series and key |
| BrokerReport.BucketRows | operations/views.py:224-241 | one row per dict entry, in insertion order, with the broker, the period, the entry's key as its Date and its value as its total |
| BucketProperties.BucketRowsFollowKeys | operations/views.py:224-241 | the Date of the i-th row an output loop appends is the i-th key `.items()` visits, and there is one row per key |
| BrokerReport.AppendBucketRows | operations/views.py:224-241 | each output loop appends exactly `BucketRows` after the rows already listed |
| BrokerReport.BrokerReportView | operations/views.py:171-243 | the whole view answers exactly `Report`: BrokerRequired, the unbound-dict failure, the first KeyError, or the full row list |
| BucketProperties.StepFailsIff | operations/views.py:199-222 | on a reachable state, a step fails exactly when the gap is at most the width and the start is not the first day, and it then fails on key `str(start)` |
| BucketProperties.StepWithinWidth | operations/views.py:205-206 | gap below the width: the amount is added to the `str(start)` entry; the start, the key order and every other entry are unchanged |
| BucketProperties.StepAtWidth | operations/views.py:201-204 | gap equal to the width: `("<start>-<date>", running total)` is appended; the day's amount is added to no entry and the start stays |
| BucketProperties.StepPastWidth | operations/views.py:207-209 | gap above the width: the day becomes the start, `(date object, amount)` is appended, and there is no `str(date)` key for later lookups |
| BucketProperties.StepKeepsReachable | operations/views.py:199-222 | a successful step on a later day keeps `str(first)` present, every key dated no later than the day, and the start between the first day and the day |
| BucketProperties.RunStarts | operations/views.py:191-197 | after the first day, both dicts are `{str(first date): first amount}` and both starts are the first date |
| BucketProperties.InitReachable | operations/views.py:191-197 | the initial state has the reachable shape |
| BucketProperties.RunReachable | operations/views.py:189-222 | over date-sorted rows, every state the pass reaches has the reachable shape, both weekly and monthly |
| BucketProperties.RunNextFailsIff | operations/views.py:199-222 | the next sorted day raises KeyError exactly when it falls within the width of a weekly bucket opened by a jump (checked first), or else of such a monthly bucket; the error names that series and `str(start)` |
| BucketProperties.WeekStepFirstTotal | operations/views.py:199-209 | one weekly step adds the day's amount to `str(first)` exactly when the day is less than 7 days from the first day, and the start stays on the first day or more than 7 days after it |
| BucketProperties.FirstWeekTotal | operations/views.py:191-209 | over sorted rows, the weekly `str(first)` entry always holds the sum of the amounts of the days less than 7 days after the first day; a day exactly 7 days after is in no sum |
| BucketProperties.MonthlyZeroGap | operations/views.py:211-222 | when the month difference is always 0, the monthly dict stays `{str(first): sum of all amounts}` and every failure is a weekly KeyError |
| BucketProperties.ReportErrors | operations/views.py:172-224 | a missing or empty broker name gives BrokerRequired, and a named broker with no query results gives the unbound-dict failure |
| BucketProperties.SortedDailyRows | operations/views.py:178-189 | the Daily rows of a report number as many as the query results; they are tagged Daily with the broker and a date object, sorted by date, and a permutation of the built rows |
| BucketProperties.ReportSucceedsIff | operations/views.py:191-243 | for a named broker the report succeeds exactly when the query is non-empty and the pass over the sorted rows raises nothing |
| BucketProperties.ReportLayout | operations/views.py:224-243 | a successful report is the sorted Daily rows, then the weekly rows, then the monthly rows, and its length is the sum of the three counts |
| ReportExamples.WeeklyExample | operations/views.py:199-222 | days 0, 7, 10 and 20 give the weekly dict `{str(0): 100, "0-7": 100, date(10): 30, date(20): 40}` with start 20, and the monthly dict `{str(0): 220}` |
| ReportExamples.WeeklyKeyErrorExample | operations/views.py:203-209 | days 0, 8 and 10 fail with KeyError on weekly key `str(8)` |

## Left out

- The HTTP method check and the JSON decoding of the request body are not modelled. The model starts from the decoded `broker` field as an `Option<string>`.
- A broker value that is falsy but not a string, such as `0` or `[]`, is not modelled.
- The raw SQL query is not modelled: its grouping, summing and string interpolation. The grouped results are an input, a sequence of (date, total).
- The other views in operations/views.py and everything under etl/ are not part of this model.
- dateutil's `relativedelta` is not part of this model, so `diff_dates_month` is the abstract parameter `monthGap`.
- Float arithmetic is not modelled; amounts are exact reals.
- The JSON serialisation of the answer is not modelled. This includes how date and date-object keys print.
- Calendar dates are day ordinals, so `.days` of a date difference is integer subtraction.
- BrokerReport.SortByDate: the contract states a date-sorted permutation. It does not state that the order of rows with equal dates is kept, although the insertion is stable. The query groups by date, so dates are distinct.
- BrokerReport.Advance: the monthly and weekly blocks of the loop are written once as this method. The source repeats the code for each series.
