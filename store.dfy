/**
 * The training-data store (`useTrainingData`): three persisted documents,
 * the record map, the user settings and the app state, and the operations
 * that change them. Each document is read once from storage, falling back
 * to its default, and every operation replaces whole documents, so the
 * store is a class whose three fields the methods reassign.
 *
 * Lifetime hours are kept as tenths of an hour (`totalTrainingTenths`),
 * which is `Math.round(minutes / 60 * 10) / 10` without the division.
 */
module TrainingData {
  import opened Dates
  import opened DateKeys
  import opened Records
  import opened MonthlyStatistics
  import opened Streaks
  import opened Wrappers

  datatype UserSettings = UserSettings(
    monthlyGoal: int,
    userName: string,
    totalTrainingDays: int,
    totalTrainingTenths: int,
    joinDate: string)

  /** `lastCheckInDate` is `""` until the first check-in, modelled as `None`. */
  datatype AppState = AppState(lastMilestone: int, currentStreak: int, lastCheckInDate: Option<Date>)

  /** A `Partial<UserSettings>`: the fields an update supplies. */
  datatype SettingsPatch = SettingsPatch(
    monthlyGoal: Option<int>,
    userName: Option<string>,
    totalTrainingDays: Option<int>,
    totalTrainingTenths: Option<int>,
    joinDate: Option<string>)

  /** A `Partial<AppState>`. */
  datatype AppStatePatch = AppStatePatch(
    lastMilestone: Option<int>,
    currentStreak: Option<int>,
    lastCheckInDate: Option<Option<Date>>)

  /** The documents an imported file carries; an absent one is `None`. */
  datatype ImportedData = ImportedData(
    trainingData: Option<RecordMap>,
    userSettings: Option<UserSettings>,
    appState: Option<AppState>)

  function Pick<T>(o: Option<T>, otherwise: T): (r: T)
    ensures o.Some? ==> r == o.value
    ensures o.None? ==> r == otherwise
  {
    if o.Some? then o.value else otherwise
  }

  /** `{ ...prev, ...updates }` on the settings. */
  function ApplySettingsPatch(s: UserSettings, p: SettingsPatch): UserSettings {
    UserSettings(
      Pick(p.monthlyGoal, s.monthlyGoal),
      Pick(p.userName, s.userName),
      Pick(p.totalTrainingDays, s.totalTrainingDays),
      Pick(p.totalTrainingTenths, s.totalTrainingTenths),
      Pick(p.joinDate, s.joinDate))
  }

  /** `{ ...prev, ...updates }` on the app state. */
  function ApplyAppStatePatch(a: AppState, p: AppStatePatch): AppState {
    AppState(
      Pick(p.lastMilestone, a.lastMilestone),
      Pick(p.currentStreak, a.currentStreak),
      Pick(p.lastCheckInDate, a.lastCheckInDate))
  }

  const EmptySettingsPatch := SettingsPatch(None, None, None, None, None)
  const EmptyAppStatePatch := AppStatePatch(None, None, None)

  /** A shallow merge replaces the supplied fields, keeps the others, and merging the same patch twice changes nothing more. */
  lemma SettingsPatchMerge(s: UserSettings, p: SettingsPatch)
    ensures var r := ApplySettingsPatch(s, p);
      && (p.monthlyGoal.Some? ==> r.monthlyGoal == p.monthlyGoal.value)
      && (p.monthlyGoal.None? ==> r.monthlyGoal == s.monthlyGoal)
      && (p.userName.Some? ==> r.userName == p.userName.value)
      && (p.userName.None? ==> r.userName == s.userName)
      && (p.totalTrainingDays.Some? ==> r.totalTrainingDays == p.totalTrainingDays.value)
      && (p.totalTrainingDays.None? ==> r.totalTrainingDays == s.totalTrainingDays)
      && (p.totalTrainingTenths.Some? ==> r.totalTrainingTenths == p.totalTrainingTenths.value)
      && (p.totalTrainingTenths.None? ==> r.totalTrainingTenths == s.totalTrainingTenths)
      && (p.joinDate.Some? ==> r.joinDate == p.joinDate.value)
      && (p.joinDate.None? ==> r.joinDate == s.joinDate)
    ensures ApplySettingsPatch(ApplySettingsPatch(s, p), p) == ApplySettingsPatch(s, p)
    ensures ApplySettingsPatch(s, EmptySettingsPatch) == s
  {
  }

  /** The same three facts for the app state. */
  lemma AppStatePatchMerge(a: AppState, p: AppStatePatch)
    ensures var r := ApplyAppStatePatch(a, p);
      && (p.lastMilestone.Some? ==> r.lastMilestone == p.lastMilestone.value)
      && (p.lastMilestone.None? ==> r.lastMilestone == a.lastMilestone)
      && (p.currentStreak.Some? ==> r.currentStreak == p.currentStreak.value)
      && (p.currentStreak.None? ==> r.currentStreak == a.currentStreak)
      && (p.lastCheckInDate.Some? ==> r.lastCheckInDate == p.lastCheckInDate.value)
      && (p.lastCheckInDate.None? ==> r.lastCheckInDate == a.lastCheckInDate)
    ensures ApplyAppStatePatch(ApplyAppStatePatch(a, p), p) == ApplyAppStatePatch(a, p)
    ensures ApplyAppStatePatch(a, EmptyAppStatePatch) == a
  {
  }

  const DayMillis := 24 * 60 * 60 * 1000

  /** One of the sample records the store starts with; `daysAgo` dates its timestamp back from `now`. */
  function Sample(day: int, duration: nat, intensity: Intensity, calories: nat, now: int, daysAgo: int): TrainingRecord {
    TrainingRecord(duration, intensity, calories, Date(2025, 6, day), now - daysAgo * DayMillis)
  }

  /** The eleven sample records of June 2025. */
  function DefaultTrainingData(now: int): RecordMap {
    map[
      Date(2025, 6, 1) := Sample(1, 60, Moderate, 300, now, 22),
      Date(2025, 6, 9) := Sample(9, 90, High, 450, now, 20),
      Date(2025, 6, 10) := Sample(10, 45, Light, 225, now, 18),
      Date(2025, 6, 15) := Sample(15, 75, High, 375, now, 15),
      Date(2025, 6, 16) := Sample(16, 60, Moderate, 300, now, 13),
      Date(2025, 6, 17) := Sample(17, 90, High, 450, now, 11),
      Date(2025, 6, 18) := Sample(18, 45, Light, 225, now, 8),
      Date(2025, 6, 19) := Sample(19, 80, Moderate, 400, now, 6),
      Date(2025, 6, 20) := Sample(20, 95, High, 475, now, 4),
      Date(2025, 6, 21) := Sample(21, 60, Moderate, 300, now, 1),
      Date(2025, 6, 22) := Sample(22, 90, High, 450, now, 0)]
  }

  /** Goal 20 days, 45 training days and 156 hours, joined on the day the page loaded. */
  function DefaultUserSettings(joinDate: string): UserSettings {
    UserSettings(20, "羽毛球爱好者", 45, 1560, joinDate)
  }

  const DefaultAppState := AppState(0, 7, None)

  /** The sample records are filed under their own dates. */
  lemma DefaultsWellFormed(now: int)
    ensures WellFormed(DefaultTrainingData(now))
  {
  }

  /** `getTodayDateString`: today's record key. */
  function GetTodayDateString(today: Date): string
    requires ValidDate(today)
  {
    DateKey(today)
  }

  class Store {
    var trainingData: RecordMap
    var userSettings: UserSettings
    var appState: AppState
    /** The settings `clearAllData` restores, fixed when the page loaded. */
    const defaultSettings: UserSettings

    /** Every key is a date and every record is filed under its own date. */
    ghost predicate Valid()
      reads this
    {
      WellFormed(trainingData)
    }

    /** The cached totals are those of the records. */
    ghost predicate TotalsMatch()
      reads this
    {
      && userSettings.totalTrainingDays == |trainingData|
      && userSettings.totalTrainingTenths == RoundTenths(TotalMinutes(trainingData))
    }

    /** The documents as loaded: each is the stored one when there is one, and its default otherwise. */
    constructor(stored: ImportedData, now: int, joinDate: string)
      ensures trainingData == Pick(stored.trainingData, DefaultTrainingData(now))
      ensures userSettings == Pick(stored.userSettings, DefaultUserSettings(joinDate))
      ensures appState == Pick(stored.appState, DefaultAppState)
      ensures defaultSettings == DefaultUserSettings(joinDate)
    {
      trainingData := Pick(stored.trainingData, DefaultTrainingData(now));
      userSettings := Pick(stored.userSettings, DefaultUserSettings(joinDate));
      appState := Pick(stored.appState, DefaultAppState);
      defaultSettings := DefaultUserSettings(joinDate);
    }

    /** The key count and the rounded hours of `data`, as both mutations compute them. */
    method RecomputeTotals(data: RecordMap) returns (days: int, tenths: int)
      ensures days == |data| && tenths == RoundTenths(TotalMinutes(data))
    {
      days := |data|;
      var minutes := SumRecords(data, DurationOf);
      TotalNonNegative(data, DurationOf);
      tenths := RoundTenths(minutes);
    }

    /**
     * `addTrainingRecord`: file a new record under `date`, replacing any
     * record of that day, with calories at 4, 5 or 6 per minute by
     * intensity; recompute the cached totals from the new map and note
     * the check-in date.
     */
    method AddTrainingRecord(date: Date, duration: nat, intensity: Intensity, now: int) returns (newRecord: TrainingRecord)
      requires Valid() && ValidDate(date)
      modifies this
      ensures newRecord == TrainingRecord(duration, intensity, duration * CalorieFactor(intensity), date, now)
      ensures trainingData == old(trainingData)[date := newRecord]
      ensures |trainingData| == if date in old(trainingData) then |old(trainingData)| else |old(trainingData)| + 1
      ensures userSettings == old(userSettings).(totalTrainingDays := |trainingData|,
        totalTrainingTenths := RoundTenths(TotalMinutes(trainingData)))
      ensures appState == old(appState).(lastCheckInDate := Some(date))
      ensures Valid() && TotalsMatch()
    {
      var calories := duration * (if intensity == High then 6 else if intensity == Moderate then 5 else 4);
      newRecord := TrainingRecord(duration, intensity, calories, date, now);
      var newData := trainingData[date := newRecord];
      UpdateSize(trainingData, date, newRecord);
      var days, tenths := RecomputeTotals(newData);
      trainingData := newData;
      userSettings := userSettings.(totalTrainingDays := days, totalTrainingTenths := tenths);
      appState := appState.(lastCheckInDate := Some(date));
    }

    /**
     * `deleteTrainingRecord`: drop the record of `date`, if any, and
     * recompute the cached totals from what is left, even when nothing was
     * dropped.
     */
    method DeleteTrainingRecord(date: Date)
      requires Valid()
      modifies this
      ensures trainingData == old(trainingData) - {date}
      ensures date !in old(trainingData) ==> trainingData == old(trainingData)
      ensures |trainingData| == if date in old(trainingData) then |old(trainingData)| - 1 else |old(trainingData)|
      ensures userSettings == old(userSettings).(totalTrainingDays := |trainingData|,
        totalTrainingTenths := RoundTenths(TotalMinutes(trainingData)))
      ensures appState == old(appState)
      ensures Valid() && TotalsMatch()
    {
      var updatedData := trainingData - {date};
      RemoveSize(trainingData, date);
      var days, tenths := RecomputeTotals(updatedData);
      trainingData := updatedData;
      userSettings := userSettings.(totalTrainingDays := days, totalTrainingTenths := tenths);
    }

    /** `updateUserSettings`: a shallow merge into the settings only. */
    method UpdateUserSettings(updates: SettingsPatch)
      modifies this
      ensures userSettings == ApplySettingsPatch(old(userSettings), updates)
      ensures trainingData == old(trainingData) && appState == old(appState)
    {
      userSettings := ApplySettingsPatch(userSettings, updates);
    }

    /** `updateAppState`: a shallow merge into the app state only. */
    method UpdateAppState(updates: AppStatePatch)
      modifies this
      ensures appState == ApplyAppStatePatch(old(appState), updates)
      ensures trainingData == old(trainingData) && userSettings == old(userSettings)
    {
      appState := ApplyAppStatePatch(appState, updates);
    }

    /** `isTodayCheckedIn`: today has a record, that is, the streak walk starts today rather than yesterday. */
    function IsTodayCheckedIn(today: Date): (checkedIn: bool)
      reads this
      requires ValidDate(today)
      ensures checkedIn <==> StreakStart(trainingData, today) == today
    {
      assert DayNumber(PrevDay(today)) != DayNumber(today);
      today in trainingData
    }

    /** `calculateCurrentStreak` of the store: the same backward walk over the stored records. */
    method CalculateCurrentStreak(today: Date) returns (streak: nat)
      requires Valid() && ValidDate(today)
      ensures trainingData == map[] ==> streak == 0
      ensures IsBackwardRun(trainingData, StreakStart(trainingData, today), streak)
    {
      streak := CurrentStreak(trainingData, today);
    }

    /**
     * `getMonthlyProgress`: the days of today's month that have a record,
     * which is the month's `totalDays` and never more than its length.
     */
    method GetMonthlyProgress(today: Date) returns (count: nat)
      requires Valid() && ValidDate(today)
      ensures count == MonthStats(trainingData, today.year, today.month).totalDays
      ensures count == |MonthRecords(trainingData, today.year, today.month)|
      ensures count <= DaysInMonth(today.year, today.month)
    {
      var year, month := today.year, today.month;
      count := 0;
      for day := 1 to DaysInMonth(year, month) + 1
        invariant count == StatsThrough(trainingData, year, month, day - 1).totalDays
      {
        if Date(year, month, day) in trainingData {
          count := count + 1;
        }
      }
      MonthStatsBalanced(trainingData, year, month);
      MonthStatsCounts(trainingData, year, month);
    }

    /** `importData`: each document the file carries replaces the stored one; the others stay. */
    method ImportData(imported: ImportedData)
      modifies this
      ensures trainingData == Pick(imported.trainingData, old(trainingData))
      ensures userSettings == Pick(imported.userSettings, old(userSettings))
      ensures appState == Pick(imported.appState, old(appState))
    {
      if imported.trainingData.Some? {
        trainingData := imported.trainingData.value;
      }
      if imported.userSettings.Some? {
        userSettings := imported.userSettings.value;
      }
      if imported.appState.Some? {
        appState := imported.appState.value;
      }
    }

    /** `clearAllData`: no records, and the default settings and app state. */
    method ClearAllData()
      modifies this
      ensures trainingData == map[] && userSettings == defaultSettings && appState == DefaultAppState
      ensures Valid()
    {
      trainingData := map[];
      userSettings := defaultSettings;
      appState := DefaultAppState;
    }
  }

  /** After a clear the cached day count is the default 45, not the 0 records left. */
  lemma ClearedTotalsStale(s: Store)
    requires s.trainingData == map[] && s.userSettings == DefaultUserSettings(s.defaultSettings.joinDate)
    ensures !s.TotalsMatch()
  {
  }
}
