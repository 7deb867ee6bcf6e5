/**
  What the weekly and monthly accumulators of `broker_report` do, step by
  step and over a whole pass, and how the report is laid out.

  The per-step lemmas hold for any bucket width and any gap, so they speak of
  the weekly series (width 7, gap = the absolute day difference) and of the
  monthly series (width 1, gap = whatever the month-difference function
  returns) alike.
 */
module BucketProperties {
  import opened Results
  import opened PyDict
  import opened BrokerReport

  /** No key of `d` is dated after `last`, and the only string-of-a-date key is `str(first)`. */
  ghost predicate WellDated(d: Dict<Key, real>, first: int, last: int)
  {
    d == [] || (d[0].0.d <= last && (d[0].0.StrDate? ==> d[0].0.d == first) && WellDated(d[1..], first, last))
  }

  /**
    The shape of every accumulator state a pass can reach after the first day
    `first` and up to the day `last`: the running-total key `str(first)` is
    present, the keys are well dated, and the bucket start lies between
    `first` and `last`.
   */
  ghost predicate Reachable(b: Bucket, first: int, last: int)
  {
    && StrDate(first) in Keys(b.entries)
    && WellDated(b.entries, first, last)
    && first <= b.start <= last
  }

  /** Both accumulators have the reachable shape. */
  ghost predicate BothReachable(s: Buckets, first: int, last: int)
  {
    Reachable(s.week, first, last) && Reachable(s.month, first, last)
  }

  /** Every key of a well-dated dict is dated no later than `last`, and a string-of-a-date key is `str(first)`. */
  lemma {:induction false} WellDatedKey(d: Dict<Key, real>, first: int, last: int, k: Key)
    requires WellDated(d, first, last) && k in Keys(d)
    ensures k.d <= last && (k.StrDate? ==> k.d == first)
  {
    if d[0].0 != k {
      WellDatedKey(d[1..], first, last, k);
    }
  }

  /** Assigning a key dated no later than `date` (and no string key but `str(first)`) keeps a dict well dated up to `date`. */
  lemma {:induction false} WellDatedSet(d: Dict<Key, real>, first: int, last: int, date: int, k: Key, v: real)
    requires WellDated(d, first, last) && last <= date
    requires k.d <= date && (k.StrDate? ==> k.d == first)
    ensures WellDated(Set(d, k, v), first, date)
  {
    if d == [] {
      assert Set(d, k, v)[1..] == [];
    } else if d[0].0 == k {
      WellDatedLater(d[1..], first, last, date);
      assert Set(d, k, v)[1..] == d[1..];
    } else {
      WellDatedSet(d[1..], first, last, date, k, v);
      assert Set(d, k, v)[1..] == Set(d[1..], k, v);
    }
  }

  /** A dict well dated up to `last` is well dated up to any later day. */
  lemma {:induction false} WellDatedLater(d: Dict<Key, real>, first: int, last: int, date: int)
    requires WellDated(d, first, last) && last <= date
    ensures WellDated(d, first, date)
  {
    if d != [] {
      WellDatedLater(d[1..], first, last, date);
    }
  }

  /** The sum of all amounts. */
  function Sum(rows: seq<Row>): real
  {
    if rows == [] then 0.0 else Sum(rows[..|rows| - 1]) + rows[|rows| - 1].total
  }

  /** The sum of the amounts of the rows less than `width` days away from `first`. */
  function SumWithin(rows: seq<Row>, first: int, width: int): real
  {
    if rows == [] then 0.0
    else
      var last := rows[|rows| - 1];
      SumWithin(rows[..|rows| - 1], first, width) + (if Abs(first - DayOf(last)) < width then last.total else 0.0)
  }

  /** Extending a prefix by one row adds that row's amount to the sum when it is within `width` days of `first`. */
  lemma SumWithinStep(rows: seq<Row>, n: nat, first: int, width: int)
    requires 1 <= n <= |rows|
    ensures SumWithin(rows[..n], first, width) == SumWithin(rows[..n - 1], first, width)
      + (if Abs(first - DayOf(rows[n - 1])) < width then rows[n - 1].total else 0.0)
  {
    assert rows[..n][..n - 1] == rows[..n - 1];
  }

  // ---------------------------------------------------------------------------
  // One step
  // ---------------------------------------------------------------------------

  /**
    A step fails exactly when the day falls inside or exactly closes the
    current bucket (gap not above the width) and that bucket was opened by a
    jump: its start is then keyed by the date object, and the lookup of
    `str(start)` raises KeyError.
   */
  lemma StepFailsIff(b: Bucket, width: int, gap: int, date: int, total: real, first: int, last: int)
    requires Reachable(b, first, last)
    ensures Step(b, width, gap, date, total).Failure? <==> gap <= width && b.start != first
    ensures Step(b, width, gap, date, total).Failure? ==> Step(b, width, gap, date, total).error == StrDate(b.start)
  {
    GetFindsKey(b.entries, StrDate(b.start));
    if StrDate(b.start) in Keys(b.entries) {
      WellDatedKey(b.entries, first, last, StrDate(b.start));
    }
  }

  /**
    Gap below the width: the amount is added in place to the running total
    under `str(start)`; the start, the key order and every other entry stay.
   */
  lemma StepWithinWidth(b: Bucket, width: int, gap: int, date: int, total: real, running: real)
    requires gap < width
    requires Get(b.entries, StrDate(b.start)) == Some(running)
    ensures Step(b, width, gap, date, total).Success?
    ensures var after := Step(b, width, gap, date, total).value;
      && after.start == b.start
      && Keys(after.entries) == Keys(b.entries)
      && Get(after.entries, StrDate(b.start)) == Some(running + total)
      && forall k :: k != StrDate(b.start) ==> Get(after.entries, k) == Get(b.entries, k)
  {
    var after := Step(b, width, gap, date, total).value;
    GetFindsKey(b.entries, StrDate(b.start));
    SetShape(b.entries, StrDate(b.start), running + total);
    forall k ensures Get(after.entries, k) == if k == StrDate(b.start) then Some(running + total) else Get(b.entries, k) {
      GetAfterSet(b.entries, StrDate(b.start), running + total, k);
    }
  }

  /**
    Gap equal to the width, dates strictly increasing: a "start-date" range
    key is appended holding a copy of the running total; the day's own amount
    is added nowhere and the bucket start does not move.
   */
  lemma StepAtWidth(b: Bucket, width: int, gap: int, date: int, total: real, first: int, last: int, running: real)
    requires Reachable(b, first, last) && last < date
    requires gap == width
    requires Get(b.entries, StrDate(b.start)) == Some(running)
    ensures Step(b, width, gap, date, total) == Success(Bucket(b.start, b.entries + [(Range(b.start, date), running)]))
  {
    if Range(b.start, date) in Keys(b.entries) {
      WellDatedKey(b.entries, first, last, Range(b.start, date));
    }
    SetShape(b.entries, Range(b.start, date), running);
  }

  /**
    Gap above the width, dates strictly increasing: the day opens a new bucket
    that starts on it, appended under the date object (not its string) and
    holding the day's amount.
   */
  lemma StepPastWidth(b: Bucket, width: int, gap: int, date: int, total: real, first: int, last: int)
    requires Reachable(b, first, last) && last < date
    requires gap > width
    ensures Step(b, width, gap, date, total) == Success(Bucket(date, b.entries + [(DateObj(date), total)]))
    ensures StrDate(date) !in Keys(Step(b, width, gap, date, total).value.entries)
  {
    if DateObj(date) in Keys(b.entries) {
      WellDatedKey(b.entries, first, last, DateObj(date));
    }
    SetShape(b.entries, DateObj(date), total);
    KeysAfterSet(b.entries, DateObj(date), total, StrDate(date));
    if StrDate(date) in Keys(b.entries) {
      WellDatedKey(b.entries, first, last, StrDate(date));
    }
  }

  /** A successful step on a later day keeps the reachable shape. */
  lemma StepKeepsReachable(b: Bucket, width: int, gap: int, date: int, total: real, first: int, last: int)
    requires Reachable(b, first, last) && last <= date
    requires Step(b, width, gap, date, total).Success?
    ensures Reachable(Step(b, width, gap, date, total).value, first, date)
  {
    var after := Step(b, width, gap, date, total).value;
    StepFailsIff(b, width, gap, date, total, first, last);
    var key := if gap == width then Range(b.start, date) else if gap < width then StrDate(b.start) else DateObj(date);
    var v := if gap > width then total else if gap == width then Get(b.entries, StrDate(b.start)).value
             else Get(b.entries, StrDate(b.start)).value + total;
    assert after.entries == Set(b.entries, key, v);
    KeysAfterSet(b.entries, key, v, StrDate(first));
    WellDatedSet(b.entries, first, last, date, key, v);
  }

  // ---------------------------------------------------------------------------
  // A whole pass
  // ---------------------------------------------------------------------------

  /** Both mappings start as {str(first date): first amount}, both starts on the first date. */
  lemma RunStarts(rows: seq<Row>, monthGap: (int, int) -> int)
    requires |rows| >= 1
    ensures var b := Bucket(DayOf(rows[0]), [(StrDate(DayOf(rows[0])), rows[0].total)]);
      Run(rows, 1, monthGap) == Success(Buckets(b, b))
  {
  }

  /** A successful pass over `n` rows passed over the first `n - 1` rows too. */
  lemma RunPrefixSucceeds(rows: seq<Row>, n: nat, monthGap: (int, int) -> int)
    requires 1 < n <= |rows|
    requires Run(rows, n, monthGap).Success?
    ensures Run(rows, n - 1, monthGap).Success?
  {
  }

  /** The weekly mapping after `n` rows is one weekly step from the weekly mapping after `n - 1` rows. */
  lemma RunWeekStep(rows: seq<Row>, n: nat, monthGap: (int, int) -> int)
    requires 1 < n <= |rows|
    requires Run(rows, n, monthGap).Success? && Run(rows, n - 1, monthGap).Success?
    ensures var prev := Run(rows, n - 1, monthGap).value.week;
      var row := rows[n - 1];
      Step(prev, WeekWidth, Abs(prev.start - DayOf(row)), DayOf(row), row.total) == Success(Run(rows, n, monthGap).value.week)
  {
  }

  /** A successful step of both accumulators is a successful weekly step followed by a successful monthly step. */
  lemma StepBothParts(s: Buckets, row: Row, monthGap: (int, int) -> int)
    requires StepBoth(s, row, monthGap).Success?
    ensures var w := Step(s.week, WeekWidth, Abs(s.week.start - DayOf(row)), DayOf(row), row.total);
      w.Success? && w.value == StepBoth(s, row, monthGap).value.week
    ensures var m := Step(s.month, MonthWidth, monthGap(s.month.start, DayOf(row)), DayOf(row), row.total);
      m.Success? && m.value == StepBoth(s, row, monthGap).value.month
  {
  }

  /** A successful step of both accumulators on a day no earlier than `last` keeps both shapes. */
  lemma StepBothKeepsReachable(s: Buckets, row: Row, monthGap: (int, int) -> int, first: int, last: int)
    requires Reachable(s.week, first, last) && Reachable(s.month, first, last) && last <= DayOf(row)
    requires StepBoth(s, row, monthGap).Success?
    ensures Reachable(StepBoth(s, row, monthGap).value.week, first, DayOf(row))
    ensures Reachable(StepBoth(s, row, monthGap).value.month, first, DayOf(row))
  {
    StepBothParts(s, row, monthGap);
    StepKeepsReachable(s.week, WeekWidth, Abs(s.week.start - DayOf(row)), DayOf(row), row.total, first, last);
    StepKeepsReachable(s.month, MonthWidth, monthGap(s.month.start, DayOf(row)), DayOf(row), row.total, first, last);
  }

  /** The state after the first day has the reachable shape. */
  lemma InitReachable(first: Row)
    ensures Reachable(Init(first), DayOf(first), DayOf(first))
  {
  }

  /** Over date-sorted rows, every state the pass reaches has the reachable shape, weekly and monthly. */
  lemma {:induction false} RunReachable(rows: seq<Row>, n: nat, monthGap: (int, int) -> int)
    requires SortedByDate(rows) && 1 <= n <= |rows|
    requires Run(rows, n, monthGap).Success?
    ensures BothReachable(Run(rows, n, monthGap).value, DayOf(rows[0]), DayOf(rows[n - 1]))
  {
    if n == 1 {
      InitReachable(rows[0]);
    } else {
      RunPrefixSucceeds(rows, n, monthGap);
      RunReachable(rows, n - 1, monthGap);
      RunReachableStep(rows, n, monthGap);
    }
  }

  /** `RunReachable` carried from `n - 1` rows to `n` rows. */
  lemma RunReachableStep(rows: seq<Row>, n: nat, monthGap: (int, int) -> int)
    requires SortedByDate(rows) && 1 < n <= |rows|
    requires Run(rows, n, monthGap).Success? && Run(rows, n - 1, monthGap).Success?
    requires BothReachable(Run(rows, n - 1, monthGap).value, DayOf(rows[0]), DayOf(rows[n - 2]))
    ensures BothReachable(Run(rows, n, monthGap).value, DayOf(rows[0]), DayOf(rows[n - 1]))
  {
    RunNext(rows, n, monthGap);
    assert DayOf(rows[n - 2]) <= DayOf(rows[n - 1]);
    StepBothKeepsReachable(Run(rows, n - 1, monthGap).value, rows[n - 1], monthGap, DayOf(rows[0]), DayOf(rows[n - 2]));
  }

  /**
    The next day of a date-sorted pass fails exactly when it falls inside or
    exactly closes a weekly bucket opened by a jump (KeyError on the weekly
    mapping, checked first), or otherwise does so for a monthly bucket.
   */
  lemma RunNextFailsIff(rows: seq<Row>, n: nat, monthGap: (int, int) -> int)
    requires SortedByDate(rows) && 1 <= n < |rows|
    requires Run(rows, n, monthGap).Success?
    ensures var s := Run(rows, n, monthGap).value;
      var first := DayOf(rows[0]);
      var date := DayOf(rows[n]);
      var weekBad := s.week.start != first && Abs(s.week.start - date) <= WeekWidth;
      var monthBad := s.month.start != first && monthGap(s.month.start, date) <= MonthWidth;
      && (Run(rows, n + 1, monthGap).Failure? <==> weekBad || monthBad)
      && (weekBad ==> Run(rows, n + 1, monthGap) == Failure(KeyMissing(Weekly, StrDate(s.week.start))))
      && (!weekBad && monthBad ==> Run(rows, n + 1, monthGap) == Failure(KeyMissing(Month, StrDate(s.month.start))))
  {
    var s := Run(rows, n, monthGap).value;
    var first := DayOf(rows[0]);
    var row := rows[n];
    RunReachable(rows, n, monthGap);
    assert DayOf(rows[n - 1]) <= DayOf(row);
    StepFailsIff(s.week, WeekWidth, Abs(s.week.start - DayOf(row)), DayOf(row), row.total, first, DayOf(rows[n - 1]));
    StepFailsIff(s.month, MonthWidth, monthGap(s.month.start, DayOf(row)), DayOf(row), row.total, first, DayOf(rows[n - 1]));
    assert Run(rows, n + 1, monthGap) == StepBoth(s, row, monthGap);
  }

  /**
    One successful weekly step on a day no earlier than `last` adds the day's
    amount to the `str(first)` entry exactly when the day is less than 7 days
    after the first day, and keeps the start either on the first day or more
    than 7 days after it.
   */
  lemma WeekStepFirstTotal(b: Bucket, date: int, total: real, first: int, last: int, running: real)
    requires Reachable(b, first, last) && last <= date
    requires b.start == first || b.start > first + WeekWidth
    requires Get(b.entries, StrDate(first)) == Some(running)
    requires Step(b, WeekWidth, Abs(b.start - date), date, total).Success?
    ensures var after := Step(b, WeekWidth, Abs(b.start - date), date, total).value;
      && Get(after.entries, StrDate(first)) == Some(running + if Abs(first - date) < WeekWidth then total else 0.0)
      && (after.start == first || after.start > first + WeekWidth)
  {
    var gap := Abs(b.start - date);
    StepFailsIff(b, WeekWidth, gap, date, total, first, last);
    if gap == WeekWidth {
      GetAfterSet(b.entries, Range(b.start, date), running, StrDate(first));
    } else if gap < WeekWidth {
      GetAfterSet(b.entries, StrDate(first), running + total, StrDate(first));
    } else {
      GetAfterSet(b.entries, DateObj(date), total, StrDate(first));
    }
  }

  /**
    Over date-sorted rows, the weekly entry `str(first)` always holds the sum
    of the amounts of the days less than 7 days after the first day, and once
    the weekly start has moved it lies more than 7 days after the first day.
    The amount of a day exactly 7 days after the first is in no sum.
   */
  lemma {:induction false} FirstWeekTotal(rows: seq<Row>, n: nat, monthGap: (int, int) -> int)
    requires SortedByDate(rows) && 1 <= n <= |rows|
    requires Run(rows, n, monthGap).Success?
    ensures var week := Run(rows, n, monthGap).value.week;
      var first := DayOf(rows[0]);
      && Get(week.entries, StrDate(first)) == Some(SumWithin(rows[..n], first, WeekWidth))
      && (week.start == first || week.start > first + WeekWidth)
  {
    if n == 1 {
      assert rows[..1] == [rows[0]] && rows[..1][..0] == [];
    } else {
      RunPrefixSucceeds(rows, n, monthGap);
      FirstWeekTotal(rows, n - 1, monthGap);
      FirstWeekRunStep(rows, n, monthGap);
    }
  }

  /** `FirstWeekTotal` carried from `n - 1` rows to `n` rows. */
  lemma FirstWeekRunStep(rows: seq<Row>, n: nat, monthGap: (int, int) -> int)
    requires SortedByDate(rows) && 1 < n <= |rows|
    requires Run(rows, n, monthGap).Success? && Run(rows, n - 1, monthGap).Success?
    requires var prev := Run(rows, n - 1, monthGap).value.week;
      var first := DayOf(rows[0]);
      && Get(prev.entries, StrDate(first)) == Some(SumWithin(rows[..n - 1], first, WeekWidth))
      && (prev.start == first || prev.start > first + WeekWidth)
    ensures var week := Run(rows, n, monthGap).value.week;
      var first := DayOf(rows[0]);
      && Get(week.entries, StrDate(first)) == Some(SumWithin(rows[..n], first, WeekWidth))
      && (week.start == first || week.start > first + WeekWidth)
  {
    RunWeekStep(rows, n, monthGap);
    RunReachable(rows, n - 1, monthGap);
    FirstWeekNext(rows, n, Run(rows, n - 1, monthGap).value.week, Run(rows, n, monthGap).value.week);
  }

  /** The inductive step of `FirstWeekTotal`: the weekly step that takes in row `n - 1`. */
  lemma FirstWeekNext(rows: seq<Row>, n: nat, prev: Bucket, week: Bucket)
    requires SortedByDate(rows) && 1 < n <= |rows|
    requires Reachable(prev, DayOf(rows[0]), DayOf(rows[n - 2]))
    requires Step(prev, WeekWidth, Abs(prev.start - DayOf(rows[n - 1])), DayOf(rows[n - 1]), rows[n - 1].total) == Success(week)
    requires var first := DayOf(rows[0]);
      && Get(prev.entries, StrDate(first)) == Some(SumWithin(rows[..n - 1], first, WeekWidth))
      && (prev.start == first || prev.start > first + WeekWidth)
    ensures var first := DayOf(rows[0]);
      && Get(week.entries, StrDate(first)) == Some(SumWithin(rows[..n], first, WeekWidth))
      && (week.start == first || week.start > first + WeekWidth)
  {
    var first := DayOf(rows[0]);
    SumWithinStep(rows, n, first, WeekWidth);
    assert DayOf(rows[n - 2]) <= DayOf(rows[n - 1]);
    WeekStepFirstTotal(prev, DayOf(rows[n - 1]), rows[n - 1].total, first, DayOf(rows[n - 2]), SumWithin(rows[..n - 1], first, WeekWidth));
  }

  /**
    With a month-difference function that is 0 for every pair of dates, the
    monthly mapping stays a single entry {str(first date): sum of all amounts}
    and any failure comes from the weekly mapping.
   */
  lemma {:induction false} MonthlyZeroGap(rows: seq<Row>, n: nat, monthGap: (int, int) -> int)
    requires 1 <= n <= |rows|
    requires forall a, b :: monthGap(a, b) == 0
    ensures Run(rows, n, monthGap).Success? ==>
      Run(rows, n, monthGap).value.month == Bucket(DayOf(rows[0]), [(StrDate(DayOf(rows[0])), Sum(rows[..n]))])
    ensures Run(rows, n, monthGap).Failure? ==>
      Run(rows, n, monthGap).error.KeyMissing? && Run(rows, n, monthGap).error.series == Weekly
  {
    var first := DayOf(rows[0]);
    if n == 1 {
      assert rows[..1] == [rows[0]] && rows[..1][..0] == [];
    } else {
      MonthlyZeroGap(rows, n - 1, monthGap);
      assert rows[..n][..n - 1] == rows[..n - 1];
      assert rows[..n][n - 1] == rows[n - 1];
    }
  }

  // ---------------------------------------------------------------------------
  // The report
  // ---------------------------------------------------------------------------

  /** The two error answers that do not come from a bucket lookup. */
  lemma ReportErrors(query: seq<DailyTotal>, name: string, monthGap: (int, int) -> int)
    ensures Report(None, query, monthGap) == Failure(BrokerRequired)
    ensures Report(Some(""), query, monthGap) == Failure(BrokerRequired)
    ensures name != "" ==> Report(Some(name), [], monthGap) == Failure(UnboundMapping)
  {
  }

  /**
    The Daily rows of a report: one per query result, each tagged Daily with
    the requested broker and carrying its date object, ascending by date, and
    the same rows as the query gave, only reordered.
   */
  lemma SortedDailyRows(name: string, query: seq<DailyTotal>)
    ensures var daily := SortByDate(DailyRows(name, query));
      && |daily| == |query|
      && SortedByDate(daily)
      && multiset(daily) == multiset(DailyRows(name, query))
      && forall i :: 0 <= i < |daily| ==>
           daily[i].broker == name && daily[i].period == Daily && daily[i].date.DateObj?
  {
    var rows := DailyRows(name, query);
    var daily := SortByDate(rows);
    assert |daily| == |multiset(daily)| == |multiset(rows)| == |rows|;
    forall i | 0 <= i < |daily|
      ensures daily[i].broker == name && daily[i].period == Daily && daily[i].date.DateObj?
    {
      assert daily[i] in multiset(rows);
    }
  }

  /** A report for a named broker succeeds exactly when the query is not empty and the pass over its sorted rows raises nothing. */
  lemma ReportSucceedsIff(name: string, query: seq<DailyTotal>, monthGap: (int, int) -> int)
    requires name != ""
    ensures var daily := SortByDate(DailyRows(name, query));
      Report(Some(name), query, monthGap).Success? <==> |query| > 0 && Run(daily, |daily|, monthGap).Success?
  {
  }

  /** The Date of the i-th row listed for a mapping is the mapping's i-th key, in iteration order. */
  lemma BucketRowsFollowKeys(name: string, d: Dict<Key, real>, p: Period)
    ensures |BucketRows(name, d, p)| == |Keys(d)|
    ensures forall i :: 0 <= i < |d| ==> BucketRows(name, d, p)[i].date == Keys(d)[i]
  {
    if d != [] {
      KeysAt(d, 0);
      forall i | 0 <= i < |d|
        ensures BucketRows(name, d, p)[i].date == Keys(d)[i]
      {
        KeysAt(d, i);
      }
    }
  }

  /**
    A successful report lists the sorted Daily rows, then one Weekly row per
    weekly key and one Month row per monthly key, each in insertion order;
    its length is the sum of the three counts.
   */
  lemma ReportLayout(name: string, query: seq<DailyTotal>, monthGap: (int, int) -> int)
    requires name != ""
    requires Report(Some(name), query, monthGap).Success?
    ensures |query| > 0
    ensures var out := Report(Some(name), query, monthGap).value;
      var daily := SortByDate(DailyRows(name, query));
      var s := Run(daily, |query|, monthGap).value;
      var nw := |s.week.entries|;
      && |out| == |query| + nw + |s.month.entries|
      && out[..|query|] == daily
      && out[|query|..|query| + nw] == BucketRows(name, s.week.entries, Weekly)
      && out[|query| + nw..] == BucketRows(name, s.month.entries, Month)
  {
    var daily := SortByDate(DailyRows(name, query));
    var s := Run(daily, |query|, monthGap).value;
    var weekly := BucketRows(name, s.week.entries, Weekly);
    var monthly := BucketRows(name, s.month.entries, Month);
    var out := Report(Some(name), query, monthGap).value;
    assert out == daily + weekly + monthly;
    assert out[..|query|] == daily;
    assert out[|query|..|query| + |weekly|] == weekly;
    assert out[|query| + |weekly|..] == monthly;
  }
}
