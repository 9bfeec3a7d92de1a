/**
 * The home page: this month's hours, today's summary, the two most recent
 * records, and the milestone effect that celebrates reaching 25, 50, 75 and
 * 100 percent of the monthly goal once per month.
 */
module Home {
  import opened Dates
  import opened DateKeys
  import opened Records
  import opened MonthlyStatistics
  import opened Streaks
  import opened Wrappers
  import opened TrainingData

  // ----- monthly hours and today's summary -----

  /**
   * `calculateMonthlyDuration`: the minutes of today's month summed day by
   * day, as hours rounded to one decimal (in tenths).
   */
  method CalculateMonthlyDuration(records: RecordMap, today: Date) returns (tenths: nat)
    requires ValidDate(today) && ValidKeys(records)
    ensures tenths == RoundTenths(MonthStats(records, today.year, today.month).totalDuration)
    ensures tenths == RoundTenths(TotalMinutes(MonthRecords(records, today.year, today.month)))
  {
    var year, month := today.year, today.month;
    var daysInMonth := DaysInMonth(year, month);
    var totalDuration: nat := 0;
    for day := 1 to daysInMonth + 1
      invariant totalDuration == StatsThrough(records, year, month, day - 1).totalDuration
    {
      var dateKey := Date(year, month, day);
      if dateKey in records {
        totalDuration := totalDuration + records[dateKey].duration;
      }
    }
    tenths := RoundTenths(totalDuration);
    MonthStatsCounts(records, year, month);
  }

  datatype TodayStats = TodayStats(duration: int, intensity: string, calories: int)

  /** `todayStats`: today's record, or zeros and 未训练 ("not trained") when there is none. */
  function GetTodayStats(records: RecordMap, today: Date): (s: TodayStats)
    ensures today !in records ==> s == TodayStats(0, "未训练", 0)
    ensures today in records ==>
      && s.duration == records[today].duration
      && s.calories == records[today].calories
      && s.intensity == IntensityLabel(records[today].intensity)
    ensures s.intensity == "未训练" <==> today !in records
  {
    if today in records then
      var r := records[today];
      assert IntensityLabel(r.intensity) != "未训练" by {
        assert IntensityLabel(r.intensity)[0] != '未' || |IntensityLabel(r.intensity)| != 3;
      }
      TodayStats(r.duration, IntensityLabel(r.intensity), r.calories)
    else TodayStats(0, "未训练", 0)
  }

  // ----- recent records -----

  datatype RecentRecord = RecentRecord(title: string, date: string, duration: string)

  /** `toLocaleDateString("zh-CN")`: year, month and day without padding, separated by slashes. */
  function LocaleDate(d: Date): string
    requires ValidDate(d)
  {
    IntToString(d.year) + "/" + NatToString(d.month) + "/" + NatToString(d.day)
  }

  /** The card of one record: "<intensity>训练", its date and "<minutes>分钟". */
  function Summary(r: TrainingRecord): RecentRecord
    requires ValidDate(r.date)
  {
    RecentRecord(IntensityLabel(r.intensity) + "训练", LocaleDate(r.date), NatToString(r.duration) + "分钟")
  }

  /** `top` holds the newest two keys, newest first (fewer when there are fewer records). */
  ghost predicate IsMostRecent(records: RecordMap, top: seq<Date>) {
    && |top| == (if |records| < 2 then |records| else 2)
    && (forall i :: 0 <= i < |top| ==> top[i] in records && ValidDate(top[i]))
    && (forall i, j :: 0 <= i < j < |top| && ValidDate(top[i]) && ValidDate(top[j]) ==> DayNumber(top[j]) < DayNumber(top[i]))
    && (forall k, i :: k in records && k !in top && 0 <= i < |top| && ValidDate(k) && ValidDate(top[i]) ==>
          DayNumber(k) < DayNumber(top[i]))
  }

  function Summaries(records: RecordMap, top: seq<Date>): (cards: seq<RecentRecord>)
    requires WellFormed(records)
    requires forall i :: 0 <= i < |top| ==> top[i] in records
    ensures |cards| == |top|
  {
    seq(|top|, i requires 0 <= i < |top| => Summary(records[top[i]]))
  }

  /** The last two of the ascending keys, last first, are the newest two. */
  lemma NewestTwoOfSorted(records: RecordMap, sorted: seq<Date>, top: seq<Date>)
    requires forall k :: k in sorted <==> k in records
    requires |sorted| == |records|
    requires forall i :: 0 <= i < |sorted| ==> ValidDate(sorted[i])
    requires Ascending(sorted)
    requires top == if |sorted| >= 2 then [sorted[|sorted| - 1], sorted[|sorted| - 2]] else sorted
    ensures IsMostRecent(records, top)
  {
    if |sorted| >= 2 {
      var n := |sorted|;
      AscendingAt(sorted, n - 2, n - 1);
      forall p | 0 <= p < n - 2
        ensures ValidDate(sorted[p]) && DayNumber(sorted[p]) < DayNumber(sorted[n - 2])
      {
        AscendingAt(sorted, p, n - 2);
      }
      NewestTwo(records, sorted);
    } else {
      assert forall k :: k in records ==> k in top;
    }
  }

  /**
   * When every key is in `sorted` and every entry before the last two is
   * older than both of them, the last two, last first, are the newest two.
   */
  lemma NewestTwo(records: RecordMap, sorted: seq<Date>)
    requires 2 <= |sorted| && 2 <= |records|
    requires forall k :: k in records ==> k in sorted
    requires sorted[|sorted| - 1] in records && sorted[|sorted| - 2] in records
    requires ValidDate(sorted[|sorted| - 1]) && ValidDate(sorted[|sorted| - 2])
    requires DayNumber(sorted[|sorted| - 2]) < DayNumber(sorted[|sorted| - 1])
    requires forall p :: 0 <= p < |sorted| - 2 ==>
      ValidDate(sorted[p]) && DayNumber(sorted[p]) < DayNumber(sorted[|sorted| - 2])
    ensures IsMostRecent(records, [sorted[|sorted| - 1], sorted[|sorted| - 2]])
  {
    var n := |sorted|;
    var top := [sorted[n - 1], sorted[n - 2]];
    forall k, i | k in records && k !in top && 0 <= i < |top| && ValidDate(k) && ValidDate(top[i])
      ensures DayNumber(k) < DayNumber(top[i])
    {
      assert top[0] in top && top[1] in top;
      var p :| 0 <= p < n && sorted[p] == k;
      BelowLastTwo(sorted, p);
    }
  }

  lemma BelowLastTwo(s: seq<Date>, p: int)
    requires 2 <= |s| && 0 <= p < |s| && s[p] != s[|s| - 1] && s[p] != s[|s| - 2]
    ensures p < |s| - 2
  {
  }

  lemma AscendingAt(s: seq<Date>, p: int, q: int)
    requires Ascending(s) && 0 <= p < q < |s|
    ensures ValidDate(s[p]) && ValidDate(s[q]) && DayNumber(s[p]) < DayNumber(s[q])
  {
  }

  /** The sort and `slice(0, 2)` of `getRecentRecords`: the keys sorted newest first, the first two. */
  method NewestTwoKeys(records: RecordMap) returns (top: seq<Date>)
    requires ValidKeys(records)
    ensures IsMostRecent(records, top)
  {
    var sorted := SortDates(records.Keys);
    var n := |sorted|;
    top := if n >= 2 then [sorted[n - 1], sorted[n - 2]] else sorted;
    NewestTwoOfSorted(records, sorted, top);
  }

  /** `getRecentRecords`: the cards of the two most recent records, newest first. */
  method GetRecentRecords(records: RecordMap) returns (recent: seq<RecentRecord>)
    requires WellFormed(records)
    ensures |recent| <= 2
    ensures exists top ::
      && IsMostRecent(records, top)
      && (forall i :: 0 <= i < |top| ==> top[i] in records)
      && recent == Summaries(records, top)
  {
    var top := NewestTwoKeys(records);
    recent := Summaries(records, top);
    assert IsMostRecent(records, top) && (forall i :: 0 <= i < |top| ==> top[i] in records)
      && recent == Summaries(records, top);
  }

  // ----- milestones -----

  const Milestones: seq<int> := [25, 50, 75, 100]

  /**
   * `currentPercentage >= m` with `currentPercentage = progress / goal * 100`:
   * an integer comparison for a positive goal; for a zero goal the
   * percentage is infinite (or not a number when there is no progress);
   * for a negative goal it is never positive.
   */
  predicate Reached(progress: nat, goal: int, m: int) {
    if goal > 0 then 100 * progress >= m * goal
    else if goal == 0 then progress > 0
    else false
  }

  /** A higher milestone reached means every lower one is reached too. */
  lemma ReachedMonotone(progress: nat, goal: int, m1: int, m2: int)
    requires 0 < m1 <= m2
    ensures Reached(progress, goal, m2) ==> Reached(progress, goal, m1)
  {
    if goal > 0 && Reached(progress, goal, m2) {
      assert m1 * goal <= m2 * goal;
    }
  }

  /** The highest milestone reached, read from the top down; 0 when none is. */
  function HighestMilestone(progress: nat, goal: int): int {
    if Reached(progress, goal, 100) then 100
    else if Reached(progress, goal, 75) then 75
    else if Reached(progress, goal, 50) then 50
    else if Reached(progress, goal, 25) then 25
    else 0
  }

  /** The `for (const milestone of milestones)` loop keeps the last milestone reached. */
  method HighestAchievedMilestone(progress: nat, goal: int) returns (highest: int)
    ensures highest == HighestMilestone(progress, goal)
  {
    highest := 0;
    for i := 0 to |Milestones|
      invariant highest == 0 || (highest in Milestones[..i] && Reached(progress, goal, highest))
      invariant forall j :: 0 <= j < i && Reached(progress, goal, Milestones[j]) ==> Milestones[j] <= highest
    {
      if Reached(progress, goal, Milestones[i]) {
        highest := Milestones[i];
      }
    }
    assert Milestones[..4] == Milestones;
    ReachedMonotone(progress, goal, 25, 50);
    ReachedMonotone(progress, goal, 50, 75);
    ReachedMonotone(progress, goal, 75, 100);
    assert Reached(progress, goal, Milestones[0]) ==> 25 <= highest;
    assert Reached(progress, goal, Milestones[1]) ==> 50 <= highest;
    assert Reached(progress, goal, Milestones[2]) ==> 75 <= highest;
    assert Reached(progress, goal, Milestones[3]) ==> 100 <= highest;
  }

  /** The highest milestone is one of the four, or 0, and is the largest one reached. */
  lemma HighestIsLargestReached(progress: nat, goal: int, m: int)
    requires m in Milestones && Reached(progress, goal, m)
    ensures m <= HighestMilestone(progress, goal)
    ensures HighestMilestone(progress, goal) == 0 || HighestMilestone(progress, goal) in Milestones
  {
    ReachedMonotone(progress, goal, 25, 50);
    ReachedMonotone(progress, goal, 50, 75);
    ReachedMonotone(progress, goal, 75, 100);
  }

  /** `Math.ceil(a / b)` for a positive divisor. */
  function CeilDiv(a: int, b: int): (q: int)
    requires b > 0
    ensures b * (q - 1) < a <= b * q
  {
    -((-a) / b)
  }

  /** `Math.ceil(monthlyGoal * (milestone / 100))`. */
  function RequiredProgress(goal: int, m: int): int {
    CeilDiv(goal * m, 100)
  }

  /** The second check before a celebration never blocks one: a reached milestone always has the required progress. */
  lemma {:induction false} RequiredProgressMet(progress: nat, goal: int, m: int)
    requires 0 < m && Reached(progress, goal, m)
    ensures progress >= RequiredProgress(goal, m)
  {
    var q := RequiredProgress(goal, m);
    if goal > 0 {
      assert 100 * (q - 1) < goal * m <= 100 * progress;
    } else {
      assert goal * m <= 0;
      assert 100 * (q - 1) < goal * m;
    }
  }

  /** The check-in date lies in another month than today (no check-in counts as this month). */
  predicate MonthChanged(lastCheckIn: Option<Date>, today: Date) {
    lastCheckIn.Some? && (lastCheckIn.value.month != today.month || lastCheckIn.value.year != today.year)
  }

  /** What one run of the milestone effect leaves behind: the stored milestone and the celebration shown. */
  datatype MilestoneState = MilestoneState(lastMilestone: int, celebrating: Option<int>)

  /**
   * The milestone effect as a transition: a new month resets the stored
   * milestone; otherwise a milestone higher than the stored one, with no
   * celebration running, is celebrated and stored.
   */
  function MilestoneTransition(s: MilestoneState, lastCheckIn: Option<Date>, today: Date, progress: nat, goal: int): MilestoneState {
    if MonthChanged(lastCheckIn, today) then s.(lastMilestone := 0)
    else
      var highest := HighestMilestone(progress, goal);
      if highest > s.lastMilestone && highest > 0 && s.celebrating.None? then MilestoneState(highest, Some(highest))
      else s
  }

  /** A stored milestone is always 0 or one of the four. */
  ghost predicate IsMilestoneValue(m: int) {
    m == 0 || m in Milestones
  }

  /**
   * Within a month the stored milestone never falls and stays one of the
   * milestone values; a new month sets it to 0; a celebration starts
   * exactly when a milestone above the stored one is reached and none is
   * running, and it shows the milestone now stored.
   */
  lemma TransitionProperties(s: MilestoneState, lastCheckIn: Option<Date>, today: Date, progress: nat, goal: int)
    requires IsMilestoneValue(s.lastMilestone)
    ensures var t := MilestoneTransition(s, lastCheckIn, today, progress, goal);
      && IsMilestoneValue(t.lastMilestone)
      && (MonthChanged(lastCheckIn, today) ==> t.lastMilestone == 0)
      && (!MonthChanged(lastCheckIn, today) ==> t.lastMilestone >= s.lastMilestone)
      && (t.celebrating != s.celebrating <==>
            !MonthChanged(lastCheckIn, today) && s.celebrating.None?
            && HighestMilestone(progress, goal) > s.lastMilestone && HighestMilestone(progress, goal) > 0)
      && (t.celebrating != s.celebrating ==> t.celebrating == Some(t.lastMilestone))
  {
  }

  /** Once the effect has run with no celebration showing, running it again in the same month with the same progress changes nothing. */
  lemma TransitionSettles(s: MilestoneState, lastCheckIn: Option<Date>, today: Date, progress: nat, goal: int)
    requires !MonthChanged(lastCheckIn, today) && s.celebrating.None?
    ensures var t := MilestoneTransition(s, lastCheckIn, today, progress, goal);
      MilestoneTransition(t.(celebrating := None), lastCheckIn, today, progress, goal) == t.(celebrating := None)
  {
  }

  /** Running the effect twice in a row with the same inputs leaves what one run left. */
  lemma TransitionIdempotent(s: MilestoneState, lastCheckIn: Option<Date>, today: Date, progress: nat, goal: int)
    ensures var t := MilestoneTransition(s, lastCheckIn, today, progress, goal);
      MilestoneTransition(t, lastCheckIn, today, progress, goal) == t
  {
  }

  /** The state after `k` runs of the effect with unchanged inputs. */
  function EffectRuns(s: MilestoneState, lastCheckIn: Option<Date>, today: Date, progress: nat, goal: int, k: nat): MilestoneState
    decreases k
  {
    if k == 0 then s
    else EffectRuns(MilestoneTransition(s, lastCheckIn, today, progress, goal), lastCheckIn, today, progress, goal, k - 1)
  }

  lemma {:induction false} EffectRunsSettle(s: MilestoneState, lastCheckIn: Option<Date>, today: Date, progress: nat, goal: int, k: nat)
    ensures EffectRuns(s, lastCheckIn, today, progress, goal, k + 1) == MilestoneTransition(s, lastCheckIn, today, progress, goal)
    decreases k
  {
    if k > 0 {
      var t := MilestoneTransition(s, lastCheckIn, today, progress, goal);
      EffectRunsSettle(t, lastCheckIn, today, progress, goal, k - 1);
      TransitionIdempotent(s, lastCheckIn, today, progress, goal);
    }
  }

  /** Whether a run of the effect celebrates: same month, a new highest milestone, and no celebration showing. */
  predicate Celebrates(s: MilestoneState, lastCheckIn: Option<Date>, today: Date, progress: nat, goal: int) {
    && !MonthChanged(lastCheckIn, today)
    && HighestMilestone(progress, goal) > s.lastMilestone
    && HighestMilestone(progress, goal) > 0
    && s.celebrating.None?
  }

  /**
   * Whether one run of the effect, as written, stores a new app-state
   * object: every run in a new month stores `lastMilestone: 0` even when 0
   * is already stored, and a celebration stores its milestone. A store
   * re-renders the page, and every render runs the effect again, because
   * `updateAppState` is re-created on each render and is one of the
   * effect's dependencies.
   */
  predicate EffectStoresAsWritten(s: MilestoneState, lastCheckIn: Option<Date>, today: Date, progress: nat, goal: int) {
    MonthChanged(lastCheckIn, today) || Celebrates(s, lastCheckIn, today, progress, goal)
  }

  /**
   * In a month after the last check-in, the stored value stops changing
   * after the first run, yet every later run stores it again, so the
   * render-and-run cycle never ends until the next check-in.
   */
  lemma AsWrittenResetNeverSettles(s: MilestoneState, lastCheckIn: Option<Date>, today: Date, progress: nat, goal: int, k: nat)
    requires MonthChanged(lastCheckIn, today)
    ensures EffectRuns(s, lastCheckIn, today, progress, goal, k + 1) == s.(lastMilestone := 0)
    ensures EffectStoresAsWritten(EffectRuns(s, lastCheckIn, today, progress, goal, k + 1), lastCheckIn, today, progress, goal)
  {
    EffectRunsSettle(s, lastCheckIn, today, progress, goal, k);
  }

  /** Whether one run stores, with the reset guarded by `lastMilestone !== 0`. */
  predicate EffectStores(s: MilestoneState, lastCheckIn: Option<Date>, today: Date, progress: nat, goal: int) {
    || (MonthChanged(lastCheckIn, today) && s.lastMilestone != 0)
    || Celebrates(s, lastCheckIn, today, progress, goal)
  }

  /** With the guard, a run stores exactly when it changes the state. */
  lemma EffectStoresOnlyChanges(s: MilestoneState, lastCheckIn: Option<Date>, today: Date, progress: nat, goal: int)
    ensures EffectStores(s, lastCheckIn, today, progress, goal) <==> MilestoneTransition(s, lastCheckIn, today, progress, goal) != s
  {
  }

  /** With the guard, no run after the first stores anything, so the cycle ends after one re-render. */
  lemma GuardedEffectSettles(s: MilestoneState, lastCheckIn: Option<Date>, today: Date, progress: nat, goal: int, k: nat)
    ensures !EffectStores(EffectRuns(s, lastCheckIn, today, progress, goal, k + 1), lastCheckIn, today, progress, goal)
  {
    EffectRunsSettle(s, lastCheckIn, today, progress, goal, k);
    var t := MilestoneTransition(s, lastCheckIn, today, progress, goal);
    TransitionIdempotent(s, lastCheckIn, today, progress, goal);
    EffectStoresOnlyChanges(t, lastCheckIn, today, progress, goal);
  }

  /**
   * The milestone effect: reset the stored milestone in a new month, or
   * else find the highest milestone reached and, when it is new and no
   * celebration is running and the required progress is there, celebrate
   * it and store it.
   */
  method MilestoneEffect(store: Store, today: Date, celebrating: Option<int>) returns (celebrating': Option<int>)
    requires store.Valid() && ValidDate(today)
    modifies store
    ensures var t := MilestoneTransition(MilestoneState(old(store.appState.lastMilestone), celebrating),
        old(store.appState.lastCheckInDate), today,
        MonthStats(old(store.trainingData), today.year, today.month).totalDays, old(store.userSettings.monthlyGoal));
      && store.appState == old(store.appState).(lastMilestone := t.lastMilestone)
      && celebrating' == t.celebrating
    ensures store.trainingData == old(store.trainingData) && store.userSettings == old(store.userSettings)
  {
    var monthlyProgress := store.GetMonthlyProgress(today);
    var monthlyGoal := store.userSettings.monthlyGoal;
    celebrating' := celebrating;
    var lastCheckDate := if store.appState.lastCheckInDate.Some? then store.appState.lastCheckInDate.value else today;
    if lastCheckDate.month != today.month || lastCheckDate.year != today.year {
      assert MonthChanged(store.appState.lastCheckInDate, today);
      store.UpdateAppState(AppStatePatch(Some(0), None, None));
      return;
    }
    assert !MonthChanged(store.appState.lastCheckInDate, today);
    celebrating' := CelebrateNewMilestone(store, monthlyProgress, monthlyGoal, celebrating);
  }

  /** The part of the milestone effect after the month check: celebrate and store a new highest milestone. */
  method CelebrateNewMilestone(store: Store, monthlyProgress: nat, monthlyGoal: int, celebrating: Option<int>)
    returns (celebrating': Option<int>)
    modifies store
    ensures var h := HighestMilestone(monthlyProgress, monthlyGoal);
      if h > old(store.appState.lastMilestone) && h > 0 && celebrating.None? then
        celebrating' == Some(h) && store.appState == old(store.appState).(lastMilestone := h)
      else
        celebrating' == celebrating && store.appState == old(store.appState)
    ensures store.trainingData == old(store.trainingData) && store.userSettings == old(store.userSettings)
  {
    celebrating' := celebrating;
    var highestAchievedMilestone := HighestAchievedMilestone(monthlyProgress, monthlyGoal);
    if highestAchievedMilestone > store.appState.lastMilestone && highestAchievedMilestone > 0 && celebrating.None? {
      var actualProgress := monthlyProgress;
      var requiredProgress := CeilDiv(monthlyGoal * highestAchievedMilestone, 100);
      RequiredProgressMet(monthlyProgress, monthlyGoal, highestAchievedMilestone);
      if actualProgress >= requiredProgress {
        celebrating' := Some(highestAchievedMilestone);
        store.UpdateAppState(AppStatePatch(Some(highestAchievedMilestone), None, None));
      }
    }
  }
}
