/**
 * The achievement cards of the statistics page (`calculateAchievements`) and
 * the "favourite intensity" badge. Each card compares one measured quantity
 * with a target: it is unlocked when the quantity reaches the target, and its
 * progress bar shows the quantity capped at the target.
 */
module Achievements {
  import opened Dates
  import opened Records
  import opened MonthlyStatistics
  import opened Streaks

  datatype Achievement = Achievement(title: string, unlocked: bool, progress: int, target: int)

  /** The six measured quantities, in the order of the cards. */
  datatype Actuals = Actuals(
    currentStreak: int,
    monthlyMinutes: int,
    highIntensityCount: int,
    maxStreak: int,
    totalRecords: int,
    totalTenths: int)

  const Titles: seq<string> := ["连续打卡7天", "单月训练20小时", "高强度训练10次", "完美一周", "训练达人", "时间管理大师"]

  /** Targets of the six cards: 7 days, 1200 minutes, 10 sessions, 7 days, 30 records, 3000 minutes. */
  const Targets: seq<int> := [7, 1200, 10, 7, 30, 3000]

  /**
   * The quantity each card measures, on the scale of its target. The last
   * card measures lifetime hours (one decimal) in minutes: six per tenth.
   */
  function Measured(x: Actuals): seq<int> {
    [x.currentStreak, x.monthlyMinutes, x.highIntensityCount, x.maxStreak, x.totalRecords, 6 * x.totalTenths]
  }

  function Min(a: int, b: int): int {
    if a < b then a else b
  }

  /** `{ unlocked: actual >= target, progress: Math.min(actual, target), target }`. */
  function Card(title: string, actual: int, target: int): Achievement {
    Achievement(title, actual >= target, Min(actual, target), target)
  }

  /** The list `calculateAchievements` returns, from the six measured quantities. */
  function AchievementList(x: Actuals): (list: seq<Achievement>)
    ensures |list| == 6
    ensures forall i :: 0 <= i < 6 ==>
      && list[i].title == Titles[i]
      && list[i].target == Targets[i]
      && list[i].progress == Min(Measured(x)[i], Targets[i])
      && (list[i].unlocked <==> Measured(x)[i] >= Targets[i])
  {
    [ Card("连续打卡7天", x.currentStreak, 7),
      Card("单月训练20小时", x.monthlyMinutes, 1200),
      Card("高强度训练10次", x.highIntensityCount, 10),
      Card("完美一周", x.maxStreak, 7),
      Card("训练达人", x.totalRecords, 30),
      Achievement("时间管理大师", x.totalTenths >= 500, Min(6 * x.totalTenths, 3000), 3000) ]
  }

  /** A card is unlocked exactly when its progress bar is full, and progress never passes the target. */
  lemma UnlockedIffFull(x: Actuals, i: int)
    requires 0 <= i < 6
    ensures AchievementList(x)[i].progress <= AchievementList(x)[i].target
    ensures AchievementList(x)[i].unlocked <==> AchievementList(x)[i].progress == AchievementList(x)[i].target
  {
  }

  /** Progress is never negative when the measured quantities are not. */
  lemma ProgressNonNegative(x: Actuals, i: int)
    requires 0 <= i < 6
    requires forall j :: 0 <= j < 6 ==> Measured(x)[j] >= 0
    ensures 0 <= AchievementList(x)[i].progress
  {
  }

  /**
   * Because lifetime hours are rounded to one decimal before they are
   * compared with 50, the last card unlocks from 2997 minutes on, three
   * minutes short of fifty hours.
   */
  lemma {:induction false} HoursCardThreshold(totalMinutes: nat)
    ensures AchievementList(Actuals(0, 0, 0, 0, 0, RoundTenths(totalMinutes)))[5].unlocked <==> totalMinutes >= 2997
  {
    var t := RoundTenths(totalMinutes);
    assert t >= 500 <==> totalMinutes >= 2997 by {
      assert 6 * t <= totalMinutes + 3 < 6 * t + 6;
    }
  }

  /**
   * The measured quantities of a record map, given its current streak and
   * its longest streak: this month's minutes, lifetime high-intensity
   * sessions, number of records and lifetime hours in tenths.
   */
  ghost function ActualsOf(records: RecordMap, today: Date, current: int, longest: int): Actuals
    requires ValidDate(today)
  {
    Actuals(current, MonthStats(records, today.year, today.month).totalDuration, Total(records, HighCountOf),
      longest, |records|, RoundTenths(TotalMinutes(records)))
  }

  /** `calculateAchievements` over the whole record map, with today's month for the monthly card. */
  method CalculateAchievements(records: RecordMap, today: Date) returns (achievements: seq<Achievement>)
    requires ValidDate(today) && ValidKeys(records)
    ensures exists current: nat, longest: nat ::
      && IsBackwardRun(records, StreakStart(records, today), current)
      && IsLongestRun(DaySet(records), longest)
      && achievements == AchievementList(ActualsOf(records, today, current, longest))
  {
    var monthlyStats := CalculateMonthlyStats(records, today.year, today.month);
    var totalRecords := |records|;
    var totalMinutes := SumRecords(records, DurationOf);
    var highIntensityCount := SumRecords(records, HighCountOf);
    TotalNonNegative(records, DurationOf);
    var totalTenths := RoundTenths(totalMinutes);
    var currentStreak := CurrentStreak(records, today);
    var maxStreak := MaxStreak(records);
    achievements := AchievementList(Actuals(currentStreak, monthlyStats.totalDuration, highIntensityCount,
      maxStreak, totalRecords, totalTenths));
    assert achievements == AchievementList(ActualsOf(records, today, currentStreak, maxStreak));
  }

  /**
   * Whenever the "7 days in a row" card is unlocked, so is "perfect week":
   * the current streak is one of the runs the longest streak bounds.
   */
  lemma StreakCardImpliesPerfectWeek(records: RecordMap, today: Date, current: nat, longest: nat)
    requires ValidDate(today) && ValidKeys(records)
    requires IsBackwardRun(records, StreakStart(records, today), current)
    requires IsLongestRun(DaySet(records), longest)
    ensures var list := AchievementList(ActualsOf(records, today, current, longest));
      list[0].unlocked ==> list[3].unlocked
  {
    CurrentStreakWithinMax(records, today, current, longest);
  }

  /**
   * The favourite-intensity badge: light when light days are at least as
   * many as either of the others, otherwise moderate when moderate days are
   * at least as many as intense days, otherwise high.
   */
  function FavouriteIntensity(s: MonthlyStats): Intensity {
    if s.lightDays >= s.moderateDays && s.lightDays >= s.intenseDays then Light
    else if s.moderateDays >= s.intenseDays then Moderate
    else High
  }

  /** The badge shows an intensity trained on the most days; ties go to the lighter one. */
  lemma FavouriteIsMostFrequent(s: MonthlyStats, j: Intensity)
    ensures DaysOf(s, j) <= DaysOf(s, FavouriteIntensity(s))
    ensures DaysOf(s, j) == DaysOf(s, FavouriteIntensity(s)) ==> IntensityRank(FavouriteIntensity(s)) <= IntensityRank(j)
  {
  }

  function IntensityRank(i: Intensity): nat {
    match i
    case Light => 0
    case Moderate => 1
    case High => 2
  }
}
