/**
 * Per-month aggregation (`calculateMonthlyStats`): walk the days 1 ..
 * daysInMonth of one month, look each day's key up in the record map and
 * accumulate the totals and the per-intensity counts and minutes. The same
 * walk serves today's month on the statistics page and the navigated month
 * in the calendar.
 */
module MonthlyStatistics {
  import opened Dates
  import opened Records

  datatype MonthlyStats = MonthlyStats(
    totalDays: nat,
    totalDuration: nat,
    totalCalories: nat,
    lightDays: nat,
    moderateDays: nat,
    intenseDays: nat,
    lightDuration: nat,
    moderateDuration: nat,
    intenseDuration: nat)

  const NoStats: MonthlyStats := MonthlyStats(0, 0, 0, 0, 0, 0, 0, 0, 0)

  /** The accumulator after one more day that has record `r`. */
  function AddDay(s: MonthlyStats, r: TrainingRecord): MonthlyStats {
    var t := s.(totalDays := s.totalDays + 1,
                totalDuration := s.totalDuration + r.duration,
                totalCalories := s.totalCalories + r.calories);
    match r.intensity
    case Light => t.(lightDays := t.lightDays + 1, lightDuration := t.lightDuration + r.duration)
    case Moderate => t.(moderateDays := t.moderateDays + 1, moderateDuration := t.moderateDuration + r.duration)
    case High => t.(intenseDays := t.intenseDays + 1, intenseDuration := t.intenseDuration + r.duration)
  }

  /** The accumulator after days 1 .. n of month `m` of year `y`. */
  function StatsThrough(records: RecordMap, y: int, m: int, n: nat): MonthlyStats
    requires 1 <= m <= 12
  {
    if n == 0 then NoStats
    else
      var s := StatsThrough(records, y, m, n - 1);
      var k := Date(y, m, n);
      if k in records then AddDay(s, records[k]) else s
  }

  /** The statistics of a whole month. */
  function MonthStats(records: RecordMap, y: int, m: int): MonthlyStats
    requires 1 <= m <= 12
  {
    StatsThrough(records, y, m, DaysInMonth(y, m))
  }

  /** The `for (day = 1; day <= daysInMonth; day++)` accumulation loop. */
  method CalculateMonthlyStats(records: RecordMap, y: int, m: int) returns (stats: MonthlyStats)
    requires 1 <= m <= 12
    ensures stats == MonthStats(records, y, m)
  {
    stats := NoStats;
    var daysInMonth := DaysInMonth(y, m);
    for day := 1 to daysInMonth + 1
      invariant stats == StatsThrough(records, y, m, day - 1)
    {
      var key := Date(y, m, day);
      if key in records {
        var training := records[key];
        stats := stats.(totalDays := stats.totalDays + 1,
                        totalDuration := stats.totalDuration + training.duration,
                        totalCalories := stats.totalCalories + training.calories);
        match training.intensity {
          case Light =>
            stats := stats.(lightDays := stats.lightDays + 1, lightDuration := stats.lightDuration + training.duration);
          case Moderate =>
            stats := stats.(moderateDays := stats.moderateDays + 1, moderateDuration := stats.moderateDuration + training.duration);
          case High =>
            stats := stats.(intenseDays := stats.intenseDays + 1, intenseDuration := stats.intenseDuration + training.duration);
        }
      }
    }
  }

  /** The three intensities split the days and the minutes, and no more days are counted than walked. */
  predicate Balanced(s: MonthlyStats, n: nat) {
    && s.lightDays + s.moderateDays + s.intenseDays == s.totalDays
    && s.lightDuration + s.moderateDuration + s.intenseDuration == s.totalDuration
    && s.totalDays <= n
  }

  lemma {:induction false} StatsThroughBalanced(records: RecordMap, y: int, m: int, n: nat)
    requires 1 <= m <= 12
    ensures Balanced(StatsThrough(records, y, m, n), n)
  {
    if n > 0 {
      StatsThroughBalanced(records, y, m, n - 1);
    }
  }

  /** Month statistics: the per-intensity days and minutes add up, and totalDays never exceeds the month's length. */
  lemma MonthStatsBalanced(records: RecordMap, y: int, m: int)
    requires 1 <= m <= 12
    ensures Balanced(MonthStats(records, y, m), DaysInMonth(y, m))
  {
    StatsThroughBalanced(records, y, m, DaysInMonth(y, m));
  }

  /** The records filed under days 1 .. n of month `m` of year `y`. */
  ghost function InMonthThrough(records: RecordMap, y: int, m: int, n: nat): RecordMap {
    map k | k in records && k.year == y && k.month == m && 1 <= k.day <= n :: records[k]
  }

  /** The records of month `m` of year `y`. */
  ghost function MonthRecords(records: RecordMap, y: int, m: int): RecordMap {
    map k | k in records && k.year == y && k.month == m :: records[k]
  }

  lemma InMonthThroughStep(records: RecordMap, y: int, m: int, n: nat)
    requires n > 0
    ensures Date(y, m, n) !in InMonthThrough(records, y, m, n - 1)
    ensures InMonthThrough(records, y, m, n) ==
      if Date(y, m, n) in records
      then InMonthThrough(records, y, m, n - 1)[Date(y, m, n) := records[Date(y, m, n)]]
      else InMonthThrough(records, y, m, n - 1)
  {
  }

  lemma {:induction false} StatsThroughCounts(records: RecordMap, y: int, m: int, n: nat)
    requires 1 <= m <= 12
    ensures var s, sub := StatsThrough(records, y, m, n), InMonthThrough(records, y, m, n);
      && s.totalDays == |sub|
      && s.totalDuration == Total(sub, DurationOf)
      && s.totalCalories == Total(sub, CaloriesOf)
  {
    if n == 0 {
      assert InMonthThrough(records, y, m, n) == map[];
    } else {
      StatsThroughCounts(records, y, m, n - 1);
      InMonthThroughStep(records, y, m, n);
      var prev, k := InMonthThrough(records, y, m, n - 1), Date(y, m, n);
      if k in records {
        TotalInsertFresh(prev, DurationOf, k, records[k]);
        TotalInsertFresh(prev, CaloriesOf, k, records[k]);
      }
    }
  }

  /**
   * Only the month's own records count: totalDays is the number of keys in
   * the month and the minute and calorie totals are the sums over exactly
   * those records.
   */
  lemma MonthStatsCounts(records: RecordMap, y: int, m: int)
    requires 1 <= m <= 12
    requires ValidKeys(records)
    ensures var s, sub := MonthStats(records, y, m), MonthRecords(records, y, m);
      && s.totalDays == |sub|
      && s.totalDuration == Total(sub, DurationOf)
      && s.totalCalories == Total(sub, CaloriesOf)
  {
    StatsThroughCounts(records, y, m, DaysInMonth(y, m));
    assert InMonthThrough(records, y, m, DaysInMonth(y, m)) == MonthRecords(records, y, m);
  }

  /** The days of one intensity in a month's statistics. */
  function DaysOf(s: MonthlyStats, i: Intensity): nat {
    match i
    case Light => s.lightDays
    case Moderate => s.moderateDays
    case High => s.intenseDays
  }

  /** The minutes of one intensity in a month's statistics. */
  function MinutesOf(s: MonthlyStats, i: Intensity): nat {
    match i
    case Light => s.lightDuration
    case Moderate => s.moderateDuration
    case High => s.intenseDuration
  }

  /** The records of `sub` trained at intensity `i`. */
  ghost function OfIntensity(sub: RecordMap, i: Intensity): RecordMap {
    map k | k in sub && sub[k].intensity == i :: sub[k]
  }

  /** One more day adds one day and its minutes to the record's own intensity and nothing to the others. */
  lemma AddDayOf(s: MonthlyStats, r: TrainingRecord, i: Intensity)
    ensures DaysOf(AddDay(s, r), i) == DaysOf(s, i) + (if r.intensity == i then 1 else 0)
    ensures MinutesOf(AddDay(s, r), i) == MinutesOf(s, i) + (if r.intensity == i then r.duration else 0)
  {
  }

  lemma OfIntensityStep(records: RecordMap, y: int, m: int, n: nat, i: Intensity)
    requires n > 0
    ensures var prev, k := OfIntensity(InMonthThrough(records, y, m, n - 1), i), Date(y, m, n);
      && k !in prev
      && OfIntensity(InMonthThrough(records, y, m, n), i) ==
         if k in records && records[k].intensity == i then prev[k := records[k]] else prev
  {
    InMonthThroughStep(records, y, m, n);
  }

  lemma {:induction false} StatsThroughByIntensity(records: RecordMap, y: int, m: int, n: nat, i: Intensity)
    requires 1 <= m <= 12
    ensures var s, sub := StatsThrough(records, y, m, n), OfIntensity(InMonthThrough(records, y, m, n), i);
      && DaysOf(s, i) == |sub|
      && MinutesOf(s, i) == Total(sub, DurationOf)
  {
    if n == 0 {
      assert OfIntensity(InMonthThrough(records, y, m, n), i) == map[];
    } else {
      StatsThroughByIntensity(records, y, m, n - 1, i);
      OfIntensityStep(records, y, m, n, i);
      var prev, k := OfIntensity(InMonthThrough(records, y, m, n - 1), i), Date(y, m, n);
      if k in records {
        AddDayOf(StatsThrough(records, y, m, n - 1), records[k], i);
        if records[k].intensity == i {
          TotalInsertFresh(prev, DurationOf, k, records[k]);
        }
      }
    }
  }

  /**
   * Each intensity's pair of fields counts the month's records of that
   * intensity: lightDays is the number of the month's light records and
   * lightDuration their minutes, and likewise for moderate and intense.
   */
  lemma MonthStatsByIntensity(records: RecordMap, y: int, m: int, i: Intensity)
    requires 1 <= m <= 12
    requires ValidKeys(records)
    ensures var s, sub := MonthStats(records, y, m), OfIntensity(MonthRecords(records, y, m), i);
      && DaysOf(s, i) == |sub|
      && MinutesOf(s, i) == Total(sub, DurationOf)
  {
    StatsThroughByIntensity(records, y, m, DaysInMonth(y, m), i);
    assert InMonthThrough(records, y, m, DaysInMonth(y, m)) == MonthRecords(records, y, m);
  }

  lemma {:induction false} StatsThroughFrame(r1: RecordMap, r2: RecordMap, y: int, m: int, n: nat)
    requires 1 <= m <= 12
    requires forall d :: 1 <= d <= n ==> (Date(y, m, d) in r1 <==> Date(y, m, d) in r2)
    requires forall d :: 1 <= d <= n && Date(y, m, d) in r1 ==> r1[Date(y, m, d)] == r2[Date(y, m, d)]
    ensures StatsThrough(r1, y, m, n) == StatsThrough(r2, y, m, n)
  {
    if n > 0 {
      StatsThroughFrame(r1, r2, y, m, n - 1);
    }
  }

  /** Two record maps that agree on a month have the same statistics for it, whatever else they hold. */
  lemma MonthStatsFrame(r1: RecordMap, r2: RecordMap, y: int, m: int)
    requires 1 <= m <= 12
    requires MonthRecords(r1, y, m) == MonthRecords(r2, y, m)
    ensures MonthStats(r1, y, m) == MonthStats(r2, y, m)
  {
    forall d | 1 <= d <= DaysInMonth(y, m)
      ensures Date(y, m, d) in r1 <==> Date(y, m, d) in r2
      ensures Date(y, m, d) in r1 ==> r1[Date(y, m, d)] == r2[Date(y, m, d)]
    {
      var k := Date(y, m, d);
      assert k in r1 <==> k in MonthRecords(r1, y, m);
      assert k in r2 <==> k in MonthRecords(r2, y, m);
      if k in r1 {
        assert r1[k] == MonthRecords(r1, y, m)[k];
      }
    }
    StatsThroughFrame(r1, r2, y, m, DaysInMonth(y, m));
  }
}
