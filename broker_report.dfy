/**
  The broker report of operations/views.py: a broker's per-date loan totals
  become Daily rows, are sorted by date, and are rolled up in one forward pass
  into a weekly and a monthly bucket mapping; the answer lists the Daily rows,
  then one Weekly row per weekly key, then one Month row per monthly key.

  Dates are day ordinals (`int`), amounts exact `real`s. A mapping key is the
  string of a date, the date object itself, or the string "<start>-<date>";
  Python never finds a string key when looking up a date object or the other
  way round, so the three kinds are kept apart.
 */
module BrokerReport {
  import opened Results
  import opened PyDict

  /** One row of the grouped query: a settlement date and that day's summed loan amount. */
  datatype DailyTotal = DailyTotal(date: int, total: real)

  /** A bucket-mapping key (and the "Date" field of a reported row). */
  datatype Key =
    | StrDate(d: int)          // str(date)
    | DateObj(d: int)          // the date object itself
    | Range(s: int, d: int)    // f"{str(s)}-{str(d)}"

  datatype Period = Daily | Weekly | Month

  /** One reported row: {"Broker", "Date", "Total Loan Amount", "Period"}. */
  datatype Row = Row(broker: string, date: Key, total: real, period: Period)

  datatype Error =
    | BrokerRequired                       // HTTP 400 "Broker name is required"
    | KeyMissing(series: Period, key: Key) // KeyError on a bucket lookup
    | UnboundMapping                       // no rows: the output loop names an unbound mapping

  /** The state of one accumulator: the bucket start date and the mapping. */
  datatype Bucket = Bucket(start: int, entries: Dict<Key, real>)

  datatype Buckets = Buckets(week: Bucket, month: Bucket)

  const WeekWidth := 7
  const MonthWidth := 1

  function Abs(x: int): int { if x < 0 then -x else x }

  /** The date a row is sorted and bucketed by (Daily rows carry `DateObj`). */
  function DayOf(r: Row): int { r.date.d }

  function DailyRow(broker: string, t: DailyTotal): Row
  {
    Row(broker, DateObj(t.date), t.total, Daily)
  }

  /** The rows built from the query results, one per result, in query order. */
  function DailyRows(broker: string, q: seq<DailyTotal>): (rows: seq<Row>)
    ensures |rows| == |q|
    ensures forall i :: 0 <= i < |q| ==>
      rows[i].broker == broker && rows[i].period == Daily &&
      rows[i].date == DateObj(q[i].date) && rows[i].total == q[i].total
  {
    if q == [] then [] else DailyRows(broker, q[..|q| - 1]) + [DailyRow(broker, q[|q| - 1])]
  }

  ghost predicate SortedByDate(rows: seq<Row>)
  {
    forall i, j :: 0 <= i < j < |rows| ==> DayOf(rows[i]) <= DayOf(rows[j])
  }

  /** Places `x` before the first row whose date is not earlier (a stable insertion). */
  function Insert(x: Row, rows: seq<Row>): (r: seq<Row>)
    ensures |r| == |rows| + 1
    ensures multiset(r) == multiset(rows) + multiset{x}
  {
    if rows == [] then [x]
    else if DayOf(x) <= DayOf(rows[0]) then [x] + rows
    else
      assert rows == [rows[0]] + rows[1..];
      [rows[0]] + Insert(x, rows[1..])
  }

  /** Inserting into a date-sorted sequence keeps it sorted. */
  lemma {:induction false} InsertKeepsSorted(x: Row, rows: seq<Row>)
    requires SortedByDate(rows)
    ensures SortedByDate(Insert(x, rows))
  {
    if rows != [] && DayOf(x) > DayOf(rows[0]) {
      var tail := Insert(x, rows[1..]);
      InsertKeepsSorted(x, rows[1..]);
      forall y | y in tail
        ensures DayOf(rows[0]) <= DayOf(y)
      {
        assert y in multiset(tail);
      }
      assert Insert(x, rows) == [rows[0]] + tail;
    }
  }

  /** `sorted(rows, key=lambda x: x["Date"])`: the same rows, ascending by date. */
  function SortByDate(rows: seq<Row>): (r: seq<Row>)
    ensures |r| == |rows|
    ensures multiset(r) == multiset(rows)
    ensures SortedByDate(r)
  {
    if rows == [] then []
    else
      assert rows == [rows[0]] + rows[1..];
      InsertKeepsSorted(rows[0], SortByDate(rows[1..]));
      Insert(rows[0], SortByDate(rows[1..]))
  }

  /** The mapping and start date right after the first day. */
  function Init(first: Row): Bucket
  {
    Bucket(DayOf(first), [(StrDate(DayOf(first)), first.total)])
  }

  /**
    One step of an accumulator of bucket width `width` for a day `date` with
    amount `total`, when the gap from the bucket start is `gap`. A failure
    carries the key whose lookup raised KeyError.
   */
  function Step(b: Bucket, width: int, gap: int, date: int, total: real): Result<Bucket, Key>
  {
    if gap == width then
      match Get(b.entries, StrDate(b.start))
      case None => Failure(StrDate(b.start))
      case Some(running) => Success(Bucket(b.start, Set(b.entries, Range(b.start, date), running)))
    else if gap < width then
      match Get(b.entries, StrDate(b.start))
      case None => Failure(StrDate(b.start))
      case Some(running) => Success(Bucket(b.start, Set(b.entries, StrDate(b.start), running + total)))
    else
      Success(Bucket(date, Set(b.entries, DateObj(date), total)))
  }

  /** The weekly step, then the monthly step, for one row. */
  function StepBoth(s: Buckets, row: Row, monthGap: (int, int) -> int): Result<Buckets, Error>
  {
    match Step(s.week, WeekWidth, Abs(s.week.start - DayOf(row)), DayOf(row), row.total)
    case Failure(k) => Failure(KeyMissing(Weekly, k))
    case Success(w) =>
      match Step(s.month, MonthWidth, monthGap(s.month.start, DayOf(row)), DayOf(row), row.total)
      case Failure(k) => Failure(KeyMissing(Month, k))
      case Success(m) => Success(Buckets(w, m))
  }

  /** Both accumulators after the first `n` rows, or the first failure. */
  function Run(rows: seq<Row>, n: nat, monthGap: (int, int) -> int): Result<Buckets, Error>
    requires 1 <= n <= |rows|
  {
    if n == 1 then Success(Buckets(Init(rows[0]), Init(rows[0])))
    else
      match Run(rows, n - 1, monthGap)
      case Failure(e) => Failure(e)
      case Success(s) => StepBoth(s, rows[n - 1], monthGap)
  }

  /** Once the first `n - 1` rows went through, row `n - 1` takes both accumulators one step. */
  lemma RunNext(rows: seq<Row>, n: nat, monthGap: (int, int) -> int)
    requires 1 < n <= |rows|
    requires Run(rows, n - 1, monthGap).Success?
    ensures Run(rows, n, monthGap) == StepBoth(Run(rows, n - 1, monthGap).value, rows[n - 1], monthGap)
  {
  }

  /** One reported row per mapping entry, in insertion order. */
  function BucketRows(broker: string, d: Dict<Key, real>, p: Period): (rows: seq<Row>)
    ensures |rows| == |d|
    ensures forall i :: 0 <= i < |d| ==>
      rows[i].broker == broker && rows[i].period == p &&
      rows[i].date == d[i].0 && rows[i].total == d[i].1
  {
    if d == [] then [] else BucketRows(broker, d[..|d| - 1], p) + [Row(broker, d[|d| - 1].0, d[|d| - 1].1, p)]
  }

  /** What `broker_report` answers for a POST with `broker` and the grouped query results `query`. */
  function Report(broker: Option<string>, query: seq<DailyTotal>, monthGap: (int, int) -> int): Result<seq<Row>, Error>
  {
    if broker.None? || broker.value == "" then Failure(BrokerRequired)
    else
      var daily := SortByDate(DailyRows(broker.value, query));
      if |daily| == 0 then Failure(UnboundMapping)
      else
        match Run(daily, |daily|, monthGap)
        case Failure(e) => Failure(e)
        case Success(s) =>
          Success(daily + BucketRows(broker.value, s.week.entries, Weekly)
                        + BucketRows(broker.value, s.month.entries, Month))
  }

  /** A failure stops the scan: every longer prefix fails the same way. */
  lemma {:induction false} RunFailureStays(rows: seq<Row>, n: nat, m: nat, monthGap: (int, int) -> int)
    requires 1 <= n <= m <= |rows|
    requires Run(rows, n, monthGap).Failure?
    ensures Run(rows, m, monthGap) == Run(rows, n, monthGap)
  {
    if m > n {
      RunFailureStays(rows, n, m - 1, monthGap);
      assert Run(rows, m, monthGap) == Run(rows, m - 1, monthGap);
    }
  }

  /** The loop that builds one Daily row per query result. */
  method CollectDailyRows(name: string, query: seq<DailyTotal>) returns (rows: seq<Row>)
    ensures rows == DailyRows(name, query)
  {
    rows := [];
    for i := 0 to |query|
      invariant rows == DailyRows(name, query[..i])
    {
      assert query[..i + 1][..i] == query[..i];
      rows := rows + [DailyRow(name, query[i])];
    }
    assert query[..|query|] == query;
  }

  /**
    One accumulator's block of the loop body (the weekly and the monthly
    blocks differ only in the width and in how `period` is computed).
   */
  method Advance(start: int, duration: Dict<Key, real>, width: int, period: int, date: int, total: real)
    returns (r: Result<Bucket, Key>)
    ensures r == Step(Bucket(start, duration), width, period, date, total)
  {
    if period == width {
      var running := Get(duration, StrDate(start));
      if running.None? {
        return Failure(StrDate(start));
      }
      r := Success(Bucket(start, Set(duration, Range(start, date), running.value)));
    } else if period < width {
      var running := Get(duration, StrDate(start));
      if running.None? {
        return Failure(StrDate(start));
      }
      r := Success(Bucket(start, Set(duration, StrDate(start), running.value + total)));
    } else {
      r := Success(Bucket(date, Set(duration, DateObj(date), total)));
    }
  }

  /** The forward pass over the sorted rows, keeping both accumulators. */
  method Bucketize(rows: seq<Row>, monthGap: (int, int) -> int) returns (r: Result<Buckets, Error>)
    requires |rows| > 0
    ensures r == Run(rows, |rows|, monthGap)
  {
    var startWeek := DayOf(rows[0]);
    var startMonth := DayOf(rows[0]);
    var durationWeek: Dict<Key, real> := [(StrDate(startWeek), rows[0].total)];
    var durationMonth: Dict<Key, real> := [(StrDate(startMonth), rows[0].total)];
    for k := 1 to |rows|
      invariant Run(rows, k, monthGap)
        == Success(Buckets(Bucket(startWeek, durationWeek), Bucket(startMonth, durationMonth)))
    {
      var row := rows[k];
      RunNext(rows, k + 1, monthGap);

      var week := Advance(startWeek, durationWeek, WeekWidth, Abs(startWeek - DayOf(row)), DayOf(row), row.total);
      if week.Failure? {
        RunFailureStays(rows, k + 1, |rows|, monthGap);
        return Failure(KeyMissing(Weekly, week.error));
      }
      var month := Advance(startMonth, durationMonth, MonthWidth, monthGap(startMonth, DayOf(row)), DayOf(row), row.total);
      if month.Failure? {
        RunFailureStays(rows, k + 1, |rows|, monthGap);
        return Failure(KeyMissing(Month, month.error));
      }
      startWeek, durationWeek := week.value.start, week.value.entries;
      startMonth, durationMonth := month.value.start, month.value.entries;
    }
    return Success(Buckets(Bucket(startWeek, durationWeek), Bucket(startMonth, durationMonth)));
  }

  /** One of the two output loops: append a row per mapping entry, in insertion order. */
  method AppendBucketRows(resultList: seq<Row>, name: string, duration: Dict<Key, real>, p: Period)
    returns (out: seq<Row>)
    ensures out == resultList + BucketRows(name, duration, p)
  {
    out := resultList;
    for j := 0 to |duration|
      invariant out == resultList + BucketRows(name, duration[..j], p)
    {
      assert duration[..j + 1][..j] == duration[..j];
      out := out + [Row(name, duration[j].0, duration[j].1, p)];
    }
    assert duration[..|duration|] == duration;
  }

  /** `broker_report` for a POST request. */
  method BrokerReportView(broker: Option<string>, query: seq<DailyTotal>, monthGap: (int, int) -> int)
    returns (r: Result<seq<Row>, Error>)
    ensures r == Report(broker, query, monthGap)
  {
    if broker.None? || broker.value == "" {
      return Failure(BrokerRequired);
    }
    var name := broker.value;
    var resultList := CollectDailyRows(name, query);
    resultList := SortByDate(resultList);
    if |resultList| == 0 {
      return Failure(UnboundMapping);
    }
    var buckets := Bucketize(resultList, monthGap);
    if buckets.Failure? {
      return Failure(buckets.error);
    }
    resultList := AppendBucketRows(resultList, name, buckets.value.week.entries, Weekly);
    resultList := AppendBucketRows(resultList, name, buckets.value.month.entries, Month);
    return Success(resultList);
  }
}
