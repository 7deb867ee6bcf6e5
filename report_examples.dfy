/**
  Worked passes of the bucketizer over small date-sorted inputs, stating the
  mappings the report builds for them (days are day ordinals; the
  month-difference function is 0 everywhere, as dateutil gives for spans of
  days).
 */
module ReportExamples {
  import opened Results
  import opened PyDict
  import opened BrokerReport

  function ZeroGap(a: int, b: int): int { 0 }

  function Day(date: int, total: real): Row
  {
    Row("acme", DateObj(date), total, Daily)
  }

  /** The weekly steps of days 7, 10 and 20 after day 0 (amounts 100, 50, 30, 40). */
  lemma WeeklyExampleSteps()
    ensures Step(Bucket(0, [(StrDate(0), 100.0)]), WeekWidth, 7, 7, 50.0)
      == Success(Bucket(0, [(StrDate(0), 100.0), (Range(0, 7), 100.0)]))
    ensures Step(Bucket(0, [(StrDate(0), 100.0), (Range(0, 7), 100.0)]), WeekWidth, 10, 10, 30.0)
      == Success(Bucket(10, [(StrDate(0), 100.0), (Range(0, 7), 100.0), (DateObj(10), 30.0)]))
    ensures Step(Bucket(10, [(StrDate(0), 100.0), (Range(0, 7), 100.0), (DateObj(10), 30.0)]), WeekWidth, 10, 20, 40.0)
      == Success(Bucket(20, [(StrDate(0), 100.0), (Range(0, 7), 100.0), (DateObj(10), 30.0), (DateObj(20), 40.0)]))
  {
    var e1: Dict<Key, real> := [(StrDate(0), 100.0)];
    var e2: Dict<Key, real> := [(StrDate(0), 100.0), (Range(0, 7), 100.0)];
    var e3: Dict<Key, real> := [(StrDate(0), 100.0), (Range(0, 7), 100.0), (DateObj(10), 30.0)];
    var e4: Dict<Key, real> := [(StrDate(0), 100.0), (Range(0, 7), 100.0), (DateObj(10), 30.0), (DateObj(20), 40.0)];
    assert Get(e1, StrDate(0)) == Some(100.0);
    assert Set(e1, Range(0, 7), 100.0) == e2;
    assert Set(e2[1..], DateObj(10), 30.0) == e3[1..];
    assert Set(e2, DateObj(10), 30.0) == e3;
    assert Set(e3[2..], DateObj(20), 40.0) == e4[2..];
    assert Set(e3[1..], DateObj(20), 40.0) == e4[1..];
    assert Set(e3, DateObj(20), 40.0) == e4;
  }

  /** The monthly steps of the same days: every gap is 0, so each amount is added to str(day 0). */
  lemma MonthlyExampleSteps()
    ensures Step(Bucket(0, [(StrDate(0), 100.0)]), MonthWidth, 0, 7, 50.0) == Success(Bucket(0, [(StrDate(0), 150.0)]))
    ensures Step(Bucket(0, [(StrDate(0), 150.0)]), MonthWidth, 0, 10, 30.0) == Success(Bucket(0, [(StrDate(0), 180.0)]))
    ensures Step(Bucket(0, [(StrDate(0), 180.0)]), MonthWidth, 0, 20, 40.0) == Success(Bucket(0, [(StrDate(0), 220.0)]))
  {
    var e1: Dict<Key, real> := [(StrDate(0), 100.0)];
    assert Get(e1, StrDate(0)) == Some(100.0);
    assert Set(e1, StrDate(0), 150.0) == [(StrDate(0), 150.0)];
    var e2: Dict<Key, real> := [(StrDate(0), 150.0)];
    assert Get(e2, StrDate(0)) == Some(150.0);
    assert Set(e2, StrDate(0), 180.0) == [(StrDate(0), 180.0)];
    var e3: Dict<Key, real> := [(StrDate(0), 180.0)];
    assert Get(e3, StrDate(0)) == Some(180.0);
    assert Set(e3, StrDate(0), 220.0) == [(StrDate(0), 220.0)];
  }

  /**
    Days 0, 7, 10 and 20: day 7 closes the first week (a range key holding the
    running total, its own amount dropped), day 10 opens a new bucket keyed by
    the date object, and so does day 20.
   */
  lemma WeeklyExample()
    ensures var rows := [Day(0, 100.0), Day(7, 50.0), Day(10, 30.0), Day(20, 40.0)];
      Run(rows, 4, ZeroGap) == Success(Buckets(
        Bucket(20, [(StrDate(0), 100.0), (Range(0, 7), 100.0), (DateObj(10), 30.0), (DateObj(20), 40.0)]),
        Bucket(0, [(StrDate(0), 220.0)])))
  {
    var rows := [Day(0, 100.0), Day(7, 50.0), Day(10, 30.0), Day(20, 40.0)];
    WeeklyExampleSteps();
    MonthlyExampleSteps();
    var w1 := Bucket(0, [(StrDate(0), 100.0)]);
    var w2 := Bucket(0, [(StrDate(0), 100.0), (Range(0, 7), 100.0)]);
    var w3 := Bucket(10, [(StrDate(0), 100.0), (Range(0, 7), 100.0), (DateObj(10), 30.0)]);
    var w4 := Bucket(20, [(StrDate(0), 100.0), (Range(0, 7), 100.0), (DateObj(10), 30.0), (DateObj(20), 40.0)]);
    var m2 := Bucket(0, [(StrDate(0), 150.0)]);
    var m3 := Bucket(0, [(StrDate(0), 180.0)]);
    var m4 := Bucket(0, [(StrDate(0), 220.0)]);
    assert Run(rows, 1, ZeroGap) == Success(Buckets(w1, w1));
    RunNext(rows, 2, ZeroGap);
    RunNext(rows, 3, ZeroGap);
    RunNext(rows, 4, ZeroGap);
  }

  /** Days 0, 8 and 10: day 10 falls inside the bucket opened at day 8, whose string key was never written. */
  lemma WeeklyKeyErrorExample()
    ensures var rows := [Day(0, 100.0), Day(8, 50.0), Day(10, 30.0)];
      Run(rows, 3, ZeroGap) == Failure(KeyMissing(Weekly, StrDate(8)))
  {
  }
}
