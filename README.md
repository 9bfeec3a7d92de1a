# Badminton training log — a verified model of its core

The application is a single-user badminton training log. One record is
filed per calendar day under a `"YYYY-MM-DD"` key. Each record holds the
minutes trained, an intensity (轻松 light, 中等 moderate, 高强度 high) and the
estimated calories. This project models the code behind the log:

- **the store** (`useTrainingData`). It holds the record map, the user
  settings and the app state. Its operations are upsert and delete of
  records with recomputed cached totals, shallow-merge updates, import and
  clear, the current streak and the monthly progress.
- **the statistics engine** of the statistics page. It covers the monthly
  aggregation over the real length of the month, the current and longest
  streaks, six achievement cards, the ordered advice cascade, the weekly
  plan and the favourite-intensity badge.
- **the calendar**. It covers key formatting, month bounds, month
  navigation with year rollover, the grid of leading blanks and day cells,
  day selection, and the viewed month's statistics, advice and plan. Only
  the selected day's details and the legend are rendered: the tabs with the
  statistics, advice and plan panels, and the buttons that call
  `handleGeneratePlan`, are commented out
  (components/training-calendar.tsx:518-815). So
  `Calendar.CalendarView.ViewedMonthStats`, `Calendar.CalendarView.MonthlyAdvice`
  and `Calendar.CalendarView.HandleGeneratePlan` model computations that
  the page performs but does not display.
- **the home page**. It covers this month's hours, today's summary, the two
  most recent records, and the milestone effect that celebrates 25/50/75/100
  percent of the monthly goal once per month.

Modules, in dependency order:

| module | file | contents |
|---|---|---|
| `Wrappers` | `wrappers.dfy` | the `Option` datatype |
| `Dates` | `dates.dfy` | Gregorian month lengths, a day number (days since 0001-01-01), previous and next day, weekday (0 = Sunday) |
| `DateKeys` | `date_keys.dfy` | the `"YYYY-MM-DD"` key and its injectivity on valid dates |
| `Records` | `records.dfy` | records, the record map keyed by `Date`, order-independent sums over it, rounding to tenths of an hour |
| `MonthlyStatistics` | `monthly_stats.dfy` | `calculateMonthlyStats` |
| `Streaks` | `streaks.dfy` | current streak, max streak, key sorting |
| `Achievements` | `achievements.dfy` | the achievement cards and the favourite intensity |
| `Advice` | `advice.dfy` | `generateTrainingAdvice` |
| `WeeklyPlan` | `weekly_plan.dfy` | `generateWeeklyPlan` and `getTrainingDetails` |
| `TrainingData` | `store.dfy` | the `Store` class, whose three fields the methods reassign |
| `Calendar` | `calendar.dfy` | the `CalendarView` class: viewed month, selection, plan |
| `Home` | `home.dfy` | the home page computations and the milestone effect |

How the source's JavaScript maps onto the model:

- **Keys.** The record map is keyed by `Date` values. `DateKeys.DateKeyInjective`
  shows that distinct valid dates have distinct keys, so a map keyed by
  strings and one keyed by dates hold the same records.
- **Percentages.** Floating-point ratio comparisons such as
  `light / total < 0.5` become integer comparisons such as
  `2 * light < total`.
- **Hours.** Hours rounded to one decimal are kept as tenths:
  `RoundTenths(m) = (m + 3) / 6`.
- **Time.** "Today" and `Date.now()` are parameters.

## Model

| member | source | states |
|---|---|---|
| Dates.DaysInMonth | components/training-calendar.tsx:67-70 | `new Date(y, m + 1, 0).getDate()`: a month has 28 to 31 days; it has 29 exactly in February of a leap year and 28 exactly in February of a common year |
| Dates.PrevDay | components/training-stats.tsx:84-93 | stepping one day back gives a valid date whose day number is one less, across month and year ends |
| Dates.NextDay | components/training-stats.tsx:439-441 | stepping one day forward gives a valid date whose day number is one more |
| Dates.AddDays | components/training-stats.tsx:388-389 | moving `n` days forward gives a valid date exactly `n` day numbers later |
| Dates.StepBack | hooks/use-training-data.ts:233-242 | `n` backward steps of the streak walk give a valid date exactly `n` day numbers earlier |
| Dates.DayNumberInjective | components/training-stats.tsx:116-121 | two valid dates with the same day number are the same date, so a difference of 1 means consecutive calendar days |
| Dates.WeekdayOfAddDays | components/training-stats.tsx:388-389 | moving `n` days forward moves `getDay()` forward by `n` modulo 7 |
| Dates.WeekdayAnchor | components/training-calendar.tsx:69 | the weekday numbering agrees with `getDay()`: 2025-06-01 is a Sunday (0) |
| DateKeys.Pad2 | hooks/use-training-data.ts:209 | `padStart(2, "0")`: every number below 100 becomes exactly two digits |
| DateKeys.NatToStringInjective | hooks/use-training-data.ts:209 | different numbers have different decimal notations |
| DateKeys.IntToStringInjective | hooks/use-training-data.ts:209 | different years, negative ones included, have different notations |
| DateKeys.DateKeyLayout | hooks/use-training-data.ts:207-210 | a key is the year's notation, `-`, the two-digit month, `-`, the two-digit day |
| DateKeys.DateKeyFourDigitYear | hooks/use-training-data.ts:207-210 | for a four-digit year the key is exactly ten characters `YYYY-MM-DD`, with dashes at positions 4 and 7 |
| DateKeys.DateKeyInjective | hooks/use-training-data.ts:207-210 | distinct valid dates get distinct record keys |
| Records.CalorieFactor | hooks/use-training-data.ts:134 | the calories per minute are 4 for light, 5 for moderate and 6 for high intensity |
| Records.TotalRemove | hooks/use-training-data.ts:155 | the `reduce` sum over `Object.values` does not depend on visiting order: any record can be taken out first |
| Records.TotalUpdate | hooks/use-training-data.ts:152-158 | filing a record under a key replaces that key's share of the sum with the new record's |
| Records.TotalInsertFresh | hooks/use-training-data.ts:152-158 | filing under a fresh key adds one record and adds its value to the sum |
| Records.TotalNonNegative | components/training-stats.tsx:103-104 | a sum of non-negative amounts is non-negative |
| Records.UpdateSize | hooks/use-training-data.ts:144-147 | an upsert grows the map by one exactly when the date had no record |
| Records.RemoveSize | hooks/use-training-data.ts:171-176 | a delete shrinks the map by one exactly when the date had a record |
| Records.SumRecords | components/training-stats.tsx:103-104 | the `reduce` loop over the records computes their total |
| Records.RoundTenths | components/training-stats.tsx:103-104 | `Math.round(minutes / 60 * 10)`: the nearest tenth of an hour, halves rounded up |
| MonthlyStatistics.CalculateMonthlyStats | components/training-stats.tsx:191-237 | the `for day` loop yields the statistics of the whole month, days 1 .. daysInMonth |
| MonthlyStatistics.StatsThroughBalanced | components/training-stats.tsx:209-232 | after any prefix of the month, the per-intensity days and minutes add up to the totals, and no more days are counted than walked |
| MonthlyStatistics.MonthStatsBalanced | components/training-stats.tsx:191-237 | `lightDays + moderateDays + intenseDays == totalDays`, likewise for the minutes, and `totalDays <= daysInMonth` |
| MonthlyStatistics.InMonthThroughStep | components/training-stats.tsx:209-211 | one more day of the walk adds exactly that day's record, if any, and no day is counted twice |
| MonthlyStatistics.StatsThroughCounts | components/training-stats.tsx:209-218 | after `n` days, the day count, minutes and calories are those of exactly the records filed on days 1..n of the month |
| MonthlyStatistics.MonthStatsCounts | components/training-stats.tsx:191-237 | only the month's own records contribute: `totalDays` is their number, and the minute and calorie totals are their sums |
| MonthlyStatistics.AddDayOf | components/training-stats.tsx:219-232 | a day with a record adds one day and its minutes to the record's own intensity, and nothing to the other two |
| MonthlyStatistics.OfIntensityStep | components/training-stats.tsx:209-232 | one more day of the walk adds that day's record to the records of its own intensity only, and never twice |
| MonthlyStatistics.StatsThroughByIntensity | components/training-stats.tsx:209-232 | after `n` days, each intensity's day count and minutes are the number and the minutes of exactly the records of that intensity filed on days 1..n |
| MonthlyStatistics.MonthStatsByIntensity | components/training-stats.tsx:191-237 | `lightDays` and `lightDuration` are the number and the total minutes of the month's light records, and likewise the moderate and the intense pairs |
| MonthlyStatistics.StatsThroughFrame | components/training-stats.tsx:209-232 | two maps that agree on days 1..n give the same statistics after `n` days |
| MonthlyStatistics.MonthStatsFrame | components/training-stats.tsx:191-237 | records outside the month never change its statistics |
| Streaks.StreakStart | components/training-stats.tsx:82-86 | the walk starts today when today has a record, else yesterday, and always on a valid date |
| Streaks.WalkStep | components/training-stats.tsx:88-96 | each step of the walk leaves a keyed day behind and stays within the number of records, so the `while (true)` loop ends |
| Streaks.CurrentStreak | components/training-stats.tsx:74-98 | the streak is 0 for an empty map; otherwise the `streak` days back from the start all have records and the day before them has none |
| Streaks.DaySetSize | components/training-stats.tsx:109-131 | valid keys have pairwise distinct day numbers: as many day numbers as records |
| Streaks.DaySetRemove | components/training-stats.tsx:109-131 | removing a key removes exactly its day number |
| Streaks.EarliestExists | components/training-stats.tsx:110 | every non-empty set of dates has an earliest one |
| Streaks.SortOrderedStep | components/training-stats.tsx:110 | appending the earliest remaining key keeps the sorted prefix ascending and before every remaining key |
| Streaks.SortDates | components/training-stats.tsx:110 | `Object.keys(...).sort(...)` ascending: a strictly ascending sequence holding exactly the keys, each once |
| Streaks.SeqRunIsConsecutive | components/training-stats.tsx:116-125 | a run of sorted day numbers one apart is a block of consecutive days with records |
| Streaks.ConsecutiveIsSeqRun | components/training-stats.tsx:116-125 | conversely, every block of consecutive days with records appears in the sorted days as a run of neighbours one apart |
| Streaks.SortedDaySet | components/training-stats.tsx:110 | the sorted keys' day numbers are strictly increasing and are exactly the records' day numbers |
| Streaks.ScanExtend | components/training-stats.tsx:121-123 | a gap of one day extends the current run, and the maximum follows it |
| Streaks.ScanBreak | components/training-stats.tsx:124-126 | any other gap restarts the run at 1 and keeps the maximum |
| Streaks.LongestSortedRun | components/training-stats.tsx:113-130 | the `for` scan finds the length of the longest run of neighbours one apart in the sorted days |
| Streaks.LongestFromSeq | components/training-stats.tsx:109-131 | the longest run of neighbours in the sorted days is the longest block of consecutive days with records |
| Streaks.MaxStreak | components/training-stats.tsx:109-131 | the max streak is 0 exactly when there are no records, never exceeds the number of records, and is the length of the longest block of consecutive days with records |
| Streaks.CurrentStreakWithinMax | components/training-stats.tsx:133-134 | the current streak never exceeds the max streak |
| Achievements.AchievementList | components/training-stats.tsx:136-185 | exactly six cards in fixed order, with targets 7, 1200, 10, 7, 30 and 3000; each card's progress is `min(actual, target)` and it is unlocked iff actual >= target |
| Achievements.UnlockedIffFull | components/training-stats.tsx:136-185 | progress never exceeds the target, and a card is unlocked exactly when its progress equals the target |
| Achievements.ProgressNonNegative | components/training-stats.tsx:136-185 | progress is never negative when the measured quantities are not |
| Achievements.HoursCardThreshold | components/training-stats.tsx:103-184 | because hours are rounded before the comparison with 50, the hours card unlocks from 2997 lifetime minutes on |
| Achievements.CalculateAchievements | components/training-stats.tsx:101-186 | the cards are computed from the current streak (a maximal backward run), the longest streak, this month's minutes, lifetime high-intensity sessions, the record count and lifetime hours |
| Achievements.StreakCardImpliesPerfectWeek | components/training-stats.tsx:136-167 | whenever the "连续打卡7天" card is unlocked, so is "完美一周" |
| Achievements.FavouriteIsMostFrequent | components/training-stats.tsx:964-981 | the favourite-intensity badge shows an intensity trained on the most days; a tie goes to the lighter intensity |
| Advice.Push | components/training-stats.tsx:244-373 | `advice.push` appends exactly one entry of the given kind, with that kind's severity and title |
| Advice.DueShape | components/training-stats.tsx:259-376 | in a month with training, each block pushes at most one entry, in block order, so there are at most five |
| Advice.DueMembers | components/training-stats.tsx:254-376 | in a month with training, an advice kind is pushed exactly when its threshold rule holds |
| Advice.AdviceOfDue | components/training-stats.tsx:254-376 | advice whose kinds are the due ones holds exactly the applicable kinds, ordered by block, at most five |
| Advice.StartOnly | components/training-stats.tsx:243-251 | a month without training gets the start-up hint alone |
| Advice.GenerateTrainingAdvice | components/training-stats.tsx:240-379 | every entry has its kind's type and title; a kind is present iff its rule applies; entries are ordered by block; at most five; exactly the one info entry when `totalDays == 0` |
| Advice.IntenseAdviceExclusive | components/training-stats.tsx:300-324 | "高强度训练过多" and "可以适当增加挑战" never apply together |
| Advice.BalancedExcludesWarnings | components/training-stats.tsx:259-376 | when "训练安排很合理！" applies, none of the frequency, light-share or intense-share advice does, nor the start-up hint |
| WeeklyPlan.AdjustSchedule | components/training-stats.tsx:410-436 | the five ordered overwrites of the base week yield, slot by slot, the slot the flags select, the later overwrite winning |
| WeeklyPlan.MakeEntry | components/training-stats.tsx:446-466 | a rest slot gives a bare rest entry; a training slot gives an entry filled in by `getTrainingDetails` |
| WeeklyPlan.EntryForFields | components/training-stats.tsx:446-466 | an entry keeps its date and label; it is a rest entry exactly for a rest slot; a training entry's duration is the one its intensity prescribes |
| WeeklyPlan.DaysUntilMonday | components/training-stats.tsx:388 | `(8 - getDay()) % 7` is 0..6 and lands on a Monday |
| WeeklyPlan.PlanDateWeekday | components/training-stats.tsx:388-441 | entry `i` is dated `nextMonday + i`, which falls on weekday `(1 + i) % 7` |
| WeeklyPlan.GenerateWeeklyPlanAsWritten | components/training-stats.tsx:382-470 | seven entries; entry `i` is dated `nextMonday + i` but is labelled `WEEKDAYS_FULL[i]` and built from `adjustedSchedule[i]` |
| WeeklyPlan.AsWrittenLabelsLagDates | components/training-stats.tsx:439-456 | as written, every entry's label names the weekday before the one its date falls on |
| WeeklyPlan.WeekdayNamesDistinct | components/training-stats.tsx:23 | the seven weekday names are pairwise different |
| WeeklyPlan.EntryWeekday | components/training-stats.tsx:439-441 | the `i`-th day from a Monday is weekday `(1 + i) % 7` |
| WeeklyPlan.GenerateWeeklyPlan | components/training-stats.tsx:382-470 | seven entries, the `i`-th dated `nextMonday + i`, each labelled and scheduled by the weekday its date falls on |
| WeeklyPlan.PlanLabelsMatchDates | components/training-stats.tsx:382-470 | every entry's label is its date's weekday; the dates are consecutive; every entry is coherent; the Sunday entry is always a rest day |
| WeeklyPlan.IntenseFlagsExclusive | components/training-stats.tsx:393-436 | `needMoreIntense` and `needLessIntense` never hold together |
| WeeklyPlan.EmptyMonthSchedule | components/training-stats.tsx:392-396 | with no training days only `needMoreFrequency` fires: Wednesday becomes light foundation work and everything else keeps the base schedule |
| WeeklyPlan.FixedSlots | components/training-stats.tsx:399-436 | slots 0 (rest) and 1 (light technique) are never adjusted |
| WeeklyPlan.MoreIntenseWinsSaturday | components/training-stats.tsx:422-436 | with a low intense share, slot 6 ends as high-intensity 对抗训练 even when `needMoreLight` also fired |
| TrainingData.Pick | hooks/use-training-data.ts:296-304 | a present value is taken; an absent one falls back |
| TrainingData.SettingsPatchMerge | hooks/use-training-data.ts:191-196 | `{...prev, ...updates}`: supplied fields are replaced, the others kept; merging the same patch twice equals merging it once; an empty patch changes nothing |
| TrainingData.AppStatePatchMerge | hooks/use-training-data.ts:199-204 | the same three facts for the app state |
| TrainingData.DefaultsWellFormed | hooks/use-training-data.ts:31-103 | every sample record is filed under a valid date that is its own |
| TrainingData.Store.constructor | hooks/use-training-data.ts:123-130 | each document is the stored one when present, and its default otherwise |
| TrainingData.Store.RecomputeTotals | hooks/use-training-data.ts:152-158 | the cached totals are the key count and the lifetime minutes in rounded tenths of an hour |
| TrainingData.Store.AddTrainingRecord | hooks/use-training-data.ts:133-168 | calories are duration × 6/5/4 by intensity; the map is the old one with `date` overwritten; it grows by one iff the date was new; the totals are recomputed from the new map and other settings are unchanged; only `lastCheckInDate` of the app state changes; the store stays well formed with matching totals |
| TrainingData.Store.DeleteTrainingRecord | hooks/use-training-data.ts:171-188 | only that key is removed, and the map is unchanged when the key is absent; the totals are recomputed from the result; the app state is unchanged |
| TrainingData.Store.UpdateUserSettings | hooks/use-training-data.ts:191-196 | the settings become the shallow merge; the other documents are unchanged |
| TrainingData.Store.UpdateAppState | hooks/use-training-data.ts:199-204 | the app state becomes the shallow merge; the other documents are unchanged |
| TrainingData.Store.IsTodayCheckedIn | hooks/use-training-data.ts:213-216 | today is checked in exactly when the streak walk starts today rather than yesterday |
| TrainingData.Store.CalculateCurrentStreak | hooks/use-training-data.ts:219-245 | 0 on an empty map; otherwise the maximal backward run of days with records from the walk's start |
| TrainingData.Store.GetMonthlyProgress | hooks/use-training-data.ts:248-262 | the count is the number of this month's records, equals the monthly statistics' `totalDays`, and never exceeds the month's length |
| TrainingData.Store.ImportData | hooks/use-training-data.ts:296-304 | each document is replaced iff the import carries it; absent ones are untouched |
| TrainingData.Store.ClearAllData | hooks/use-training-data.ts:322-326 | an empty map, the default settings and the default app state |
| TrainingData.ClearedTotalsStale | hooks/use-training-data.ts:322-326 | after a clear the cached totals (45 days) no longer match the records (none) |
| Calendar.Lookup | components/training-calendar.tsx:457 | `trainingData[key]` is present exactly when the date has a record, and is that record |
| Calendar.MonthIndexInjective | components/training-calendar.tsx:64-65 | a month index names exactly one year and month |
| Calendar.GridColumn | components/training-calendar.tsx:450-455 | after `firstDayWeekday` blanks, day `d` lands in the column of its own weekday |
| Calendar.LeadingBlanks | components/training-calendar.tsx:450-452 | the first loop yields exactly `firstDayWeekday` blank cells |
| Calendar.CalendarView.constructor | components/training-calendar.tsx:59-62 | the calendar opens on today's month, with nothing selected and no plan |
| Calendar.CalendarView.DaysInViewedMonth | components/training-calendar.tsx:68-70 | the viewed month has 28..31 days, 29 exactly in February of a leap year |
| Calendar.CalendarView.FirstDayWeekday | components/training-calendar.tsx:67-69 | the weekday of the 1st is in 0..6 |
| Calendar.CalendarView.PrevMonth | components/training-calendar.tsx:72-74 | one month back, January going to December of the previous year; the selection and plan stay |
| Calendar.CalendarView.NextMonth | components/training-calendar.tsx:76-78 | one month forward, December going to January of the next year; the selection and plan stay |
| Calendar.CalendarView.ClickDay | components/training-calendar.tsx:470 | a click selects the day when it has a record and clears the selection otherwise; the viewed month is unchanged |
| Calendar.CalendarView.SelectedTraining | components/training-calendar.tsx:485 | the shown record is present exactly when a day is selected and still has a record, and is that record |
| Calendar.CalendarView.RenderCalendarDays | components/training-calendar.tsx:446-483 | exactly `firstDayWeekday` blanks, then the days 1..daysInMonth in order; each cell has its key, its record and the today marker; each day sits in the column of its weekday |
| Calendar.CalendarView.AppendDayCells | components/training-calendar.tsx:455-480 | the second loop appends one day cell per day of the month, in order, after the blanks |
| Calendar.DayCellColumns | components/training-calendar.tsx:446-483 | every cell after the blanks is a day cell numbered by its position and placed in its weekday's column |
| Calendar.CalendarView.ViewedMonthStats | components/training-calendar.tsx:111-152 | the statistics of the navigated month, with the same sum invariants as on the statistics page |
| Calendar.CalendarView.MonthlyAdvice | components/training-calendar.tsx:155-438 | the calendar's advice holds exactly the kinds whose rules apply to the navigated month, in block order |
| Calendar.CalendarView.HandleGeneratePlan | components/training-calendar.tsx:440-444 | the plan opens for display, holding seven entries from the navigated month's statistics, entry `i` dated `nextMonday + i` but labelled and scheduled by weekday `i` as the calendar's copy of the generator does; the month and the selection stay |
| Calendar.GetDateKeyInjective | components/training-calendar.tsx:80-82 | distinct days of the viewed month get distinct keys |
| Calendar.GetDateKeyLayout | components/training-calendar.tsx:80-82 | in a four-digit year a day's key is `YYYY-MM-DD`, with the month and day zero-padded |
| Home.CalculateMonthlyDuration | app/page.tsx:37-53 | this month's minutes, summed day by day, as hours rounded to one decimal; equal to the rounded total of the month's own records |
| Home.GetTodayStats | app/page.tsx:58-63 | today's duration, intensity label and calories; (0, "未训练", 0) exactly when today has no record |
| Home.NewestTwoOfSorted | app/page.tsx:140-143 | the last two of the ascending keys, last first, are the newest two records |
| Home.NewestTwoKeys | app/page.tsx:141-143 | the sort and `slice(0, 2)` give the newest two keys, newest first, and every other key is older |
| Home.GetRecentRecords | app/page.tsx:140-150 | at most two cards: those of the most recent records, in descending date order |
| Home.ReachedMonotone | app/page.tsx:72-90 | reaching a milestone means reaching every lower one |
| Home.HighestAchievedMilestone | app/page.tsx:86-91 | the `for ... of milestones` loop ends on the highest milestone reached, or 0 |
| Home.HighestIsLargestReached | app/page.tsx:86-91 | the highest milestone is 0 or one of 25/50/75/100, and no reached milestone is higher |
| Home.CeilDiv | app/page.tsx:96 | `Math.ceil(a / b)` for a positive divisor is the least `q` with `a <= b * q` |
| Home.RequiredProgressMet | app/page.tsx:94-98 | the second check `progress >= ceil(goal * m / 100)` holds whenever the milestone is reached, so it never blocks a celebration |
| Home.TransitionProperties | app/page.tsx:71-115 | a new month resets the stored milestone to 0; within a month it never falls and stays in {0, 25, 50, 75, 100}; a celebration starts exactly when a higher milestone is reached and none is running, and it shows the new stored milestone |
| Home.TransitionSettles | app/page.tsx:94-107 | re-running the effect in the same month with the same progress, once the celebration ended, changes nothing |
| Home.TransitionIdempotent | app/page.tsx:71-107 | a second run with the same inputs leaves what the first run left |
| Home.EffectRunsSettle | app/page.tsx:71-107 | any number of runs with unchanged inputs leave the state one run leaves |
| Home.AsWrittenResetNeverSettles | app/page.tsx:80-83 | in a month after the last check-in the stored milestone is 0 from the first run on, yet every later run stores again |
| Home.EffectStoresOnlyChanges | app/page.tsx:80-107 | with the reset guarded by a non-zero stored milestone, a run stores exactly when it changes the state |
| Home.GuardedEffectSettles | app/page.tsx:80-107 | with the guard, no run after the first stores anything |
| Home.MilestoneEffect | app/page.tsx:71-115 | one run of the effect changes the stored milestone and the celebration as the transition says, and touches nothing else in the store |
| Home.CelebrateNewMilestone | app/page.tsx:86-107 | after the month check: a new highest milestone, with no celebration running, is celebrated and stored; otherwise nothing changes |

## Left out

- Browser storage, JSON (de)serialisation, `FileReader` and `exportData`
  (hooks/use-training-data.ts:265-285) are I/O. The stored documents are a
  parameter of `TrainingData.Store.constructor`, and an import is an
  `ImportedData` value whose absent documents are `None`. The parse-error
  path of `importData` is not modelled.
- The clock (`new Date()`, `Date.now()`) is a parameter, `today` or `now`.
  Time zones are not modelled. This covers the UTC parsing of
  `"YYYY-MM-DD"` keys in the sorts and in `new Date(record.date)`, and
  Math.ceil of millisecond differences across daylight-saving changes.
  Dates are local `(year, month, day)` triples.
- The 3-second `setTimeout` that ends a celebration, the React effect
  scheduling and dependency list, and all rendering (JSX, colours, icons,
  progress-bar widths, `animated-card`, `page-transition`, `navigation`)
  are outside the model. Which runs and re-renders a store causes is
  stated as predicates over repeated runs (see Findings);
  `Home.MilestoneEffect` stores on every reset as the source does, which
  leaves the same value as the guarded reset.
- The default record filed under "2025-06-20" carries the date
  "22025-06-20" (hooks/use-training-data.ts:88-92). The model files it with
  its own date, and the store's invariant assumes `record.date == key`.
- Advice.GenerateTrainingAdvice: each entry carries its kind, type and
  title. The description and suggestion texts are fixed strings per kind
  and are not modelled.
- Achievements.CalculateAchievements: the cards' icons and description
  strings are not modelled.
- TrainingData.Store.AddTrainingRecord: durations are whole minutes
  (`nat`), so the `Math.round` on calories is the identity. Fractional or
  negative durations are not modelled.
- Calendar.CalendarView.HandleGeneratePlan: the plan's `advice` argument is
  unused by the source, so it is not passed. Apart from omitting `isRest`
  on training slots (which leaves it falsy), the calendar's copy of the
  generator is the statistics page's code, so the calendar builds its plan
  with `WeeklyPlan.GenerateWeeklyPlanAsWritten`, weekday lag included.
- `generateTrainingAdvice`, `generateWeeklyPlan` and `getTrainingDetails`
  in components/training-calendar.tsx are line-for-line copies of the ones
  in components/training-stats.tsx. The model has one definition of each,
  used by both pages.
- The cached totals of the default settings (45 days, 156 hours) do not
  match the eleven sample records, and `clearAllData` restores them over an
  empty map. `TrainingData.ClearedTotalsStale` states this. The store
  invariant `TotalsMatch` therefore holds only after an add or a delete,
  which both recompute the totals.
- Home.GetRecentRecords: the order is by day number of the key. The
  source sorts by the timestamp of `record.date`; with `date == key` this
  is the same order. The zh-CN locale date format is `y/m/d` without
  padding.
- The percentages the page shows, `Math.round` of averages, the profile
  page's completion rate and the check-in dialog's slider range are display
  arithmetic and are not modelled.

## Findings

| source | as written | input that shows it | evidently intended | confidence | as-written member | corrected member |
|---|---|---|---|---|---|---|
| components/training-stats.tsx:439-456 (identically components/training-calendar.tsx:354-371) | entry `i` of the weekly plan is dated `nextMonday + i` but labelled `WEEKDAYS_FULL[i]` and built from `adjustedSchedule[i]`, both of which are indexed from Sunday | any day: the first entry is a Monday, yet it reads 周日 and gets Sunday's rest slot; the last entry is a Sunday, yet it reads 周六 and gets Saturday's training | each entry labelled and scheduled by the weekday its date falls on, `(1 + i) % 7`, so Sunday rests and Monday is light technique work | high for the label mismatch, not executed | WeeklyPlan.GenerateWeeklyPlanAsWritten (with WeeklyPlan.AsWrittenLabelsLagDates; the calendar's Calendar.CalendarView.HandleGeneratePlan builds its plan with it) | WeeklyPlan.GenerateWeeklyPlan (with WeeklyPlan.PlanLabelsMatchDates) |
| app/page.tsx:80-83 | every run of the milestone effect in a month after the last check-in calls `updateAppState({ lastMilestone: 0 })`, which stores a new object even when 0 is already stored; each store re-renders the page, and `updateAppState` (hooks/use-training-data.ts:199-204) is re-created on every render and is one of the effect's dependencies (app/page.tsx:108-115), so the effect runs again | last check-in 2025-06-22 and today 2025-07-01, before the first check-in of July: every run stores `{...prev, lastMilestone: 0}` and causes the next run | reset only when the stored milestone is not already 0, so the effect settles after one re-render | medium, not executed | Home.EffectStoresAsWritten (with Home.AsWrittenResetNeverSettles) | Home.EffectStores (with Home.EffectStoresOnlyChanges and Home.GuardedEffectSettles) |
