/**
 * The training calendar: the month on view and the selected day, month
 * navigation with year rollover, the grid of leading blanks and day cells,
 * and the viewed month's statistics, advice and next week's plan.
 */
module Calendar {
  import opened Dates
  import opened DateKeys
  import opened Records
  import opened MonthlyStatistics
  import opened Wrappers
  import Advice
  import WeeklyPlan

  /** A cell of the month grid: a leading blank, or a day with its key, today marker and record. */
  datatype Cell =
    | Blank
    | DayCell(day: int, key: string, isToday: bool, training: Option<TrainingRecord>)

  /** `trainingData[key]`: the record filed under a date, if any. */
  function Lookup(records: RecordMap, d: Date): (r: Option<TrainingRecord>)
    ensures r.Some? <==> d in records
    ensures r.Some? ==> r.value == records[d]
  {
    if d in records then Some(records[d]) else None
  }

  /** Months counted from year 0, so that neighbouring months differ by one. */
  function MonthIndex(year: int, month: int): int {
    12 * year + (month - 1)
  }

  /** A month index names one year and month. */
  lemma MonthIndexInjective(y1: int, m1: int, y2: int, m2: int)
    requires 1 <= m1 <= 12 && 1 <= m2 <= 12
    requires MonthIndex(y1, m1) == MonthIndex(y2, m2)
    ensures y1 == y2 && m1 == m2
  {
  }

  /** In a 7-column grid that starts on Sunday, day `d` lands in the column of its weekday. */
  lemma {:induction false} GridColumn(y: int, m: int, d: int)
    requires 1 <= m <= 12 && 1 <= d
    ensures (Weekday(Date(y, m, 1)) + d - 1) % 7 == Weekday(Date(y, m, d))
  {
    assert DayNumber(Date(y, m, d)) == DayNumber(Date(y, m, 1)) + d - 1;
    ModSevenShift(DayNumber(Date(y, m, 1)) + 1, d - 1);
  }

  /** The cell `renderCalendarDays` draws for day `d` of month `m` of year `y`. */
  function CellFor(records: RecordMap, today: Date, y: int, m: int, d: int): Cell
    requires 1 <= m <= 12 && 1 <= d <= DaysInMonth(y, m)
  {
    DayCell(d, DateKey(Date(y, m, d)), Date(y, m, d) == today, Lookup(records, Date(y, m, d)))
  }

  /** The first loop of `renderCalendarDays`: `n` blank cells. */
  method LeadingBlanks(n: int) returns (cells: seq<Cell>)
    ensures |cells| == if n < 0 then 0 else n
    ensures forall i :: 0 <= i < |cells| ==> cells[i] == Blank
  {
    cells := [];
    for i := 0 to if n < 0 then 0 else n
      invariant |cells| == i
      invariant forall j :: 0 <= j < i ==> cells[j] == Blank
    {
      cells := cells + [Blank];
    }
  }

  class CalendarView {
    /** `currentDate.getFullYear()` and `getMonth() + 1`: the month on view. */
    var year: int
    var month: int
    /** `selectedDate`: the day whose record is shown, if any. */
    var selected: Option<Date>
    /** `weeklyPlan` and `showPlan`: the plan last generated and whether it is open. */
    var weeklyPlan: seq<WeeklyPlan.PlanEntry>
    var showPlan: bool

    ghost predicate Valid()
      reads this
    {
      1 <= month <= 12 && (selected.Some? ==> ValidDate(selected.value))
    }

    /** The calendar opens on today's month with nothing selected and no plan. */
    constructor(today: Date)
      requires ValidDate(today)
      ensures Valid()
      ensures year == today.year && month == today.month
      ensures selected == None && weeklyPlan == [] && !showPlan
    {
      year := today.year;
      month := today.month;
      selected := None;
      weeklyPlan := [];
      showPlan := false;
    }

    /** `lastDayOfMonth.getDate()`: the length of the month on view. */
    function DaysInViewedMonth(): (n: int)
      reads this
      requires Valid()
      ensures 28 <= n <= 31
      ensures n == 29 <==> month == 2 && IsLeapYear(year)
    {
      DaysInMonth(year, month)
    }

    /** `firstDayOfMonth.getDay()`: the weekday of the 1st, 0 for Sunday. */
    function FirstDayWeekday(): (w: int)
      reads this
      requires Valid()
      ensures 0 <= w < 7
    {
      Weekday(Date(year, month, 1))
    }

    /** `getDateKey(day)`: the record key of a day of the month on view. */
    function GetDateKey(day: int): string
      reads this
      requires Valid() && 1 <= day <= DaysInMonth(year, month)
    {
      DateKey(Date(year, month, day))
    }

    /** `prevMonth`: day 1 of the month before, December of the year before after January. */
    method PrevMonth()
      requires Valid()
      modifies this
      ensures Valid()
      ensures old(month) == 1 ==> year == old(year) - 1 && month == 12
      ensures old(month) > 1 ==> year == old(year) && month == old(month) - 1
      ensures MonthIndex(year, month) == MonthIndex(old(year), old(month)) - 1
      ensures selected == old(selected) && weeklyPlan == old(weeklyPlan) && showPlan == old(showPlan)
    {
      if month == 1 {
        year, month := year - 1, 12;
      } else {
        month := month - 1;
      }
    }

    /** `nextMonth`: day 1 of the month after, January of the year after after December. */
    method NextMonth()
      requires Valid()
      modifies this
      ensures Valid()
      ensures old(month) == 12 ==> year == old(year) + 1 && month == 1
      ensures old(month) < 12 ==> year == old(year) && month == old(month) + 1
      ensures MonthIndex(year, month) == MonthIndex(old(year), old(month)) + 1
      ensures selected == old(selected) && weeklyPlan == old(weeklyPlan) && showPlan == old(showPlan)
    {
      if month == 12 {
        year, month := year + 1, 1;
      } else {
        month := month + 1;
      }
    }

    /** A click on a day selects it when it has a record and clears the selection otherwise. */
    method ClickDay(records: RecordMap, day: int)
      requires Valid() && 1 <= day <= DaysInMonth(year, month)
      modifies this
      ensures Valid()
      ensures Date(year, month, day) in records ==> selected == Some(Date(year, month, day))
      ensures Date(year, month, day) !in records ==> selected == None
      ensures year == old(year) && month == old(month)
      ensures weeklyPlan == old(weeklyPlan) && showPlan == old(showPlan)
    {
      var key := Date(year, month, day);
      selected := if key in records then Some(key) else None;
    }

    /** `selectedTraining`: the record of the selected day, none when nothing is selected or it was removed. */
    function SelectedTraining(records: RecordMap): (r: Option<TrainingRecord>)
      reads this
      ensures r.Some? <==> selected.Some? && selected.value in records
      ensures r.Some? ==> r.value == records[selected.value]
    {
      if selected.Some? then Lookup(records, selected.value) else None
    }

    /**
     * `renderCalendarDays`: `firstDayWeekday` blanks, then the days 1 ..
     * daysInMonth in order, so that each day sits in the column of its own
     * weekday and is marked as today exactly when it is today.
     */
    method RenderCalendarDays(records: RecordMap, today: Date) returns (cells: seq<Cell>)
      requires Valid()
      ensures |cells| == Weekday(Date(year, month, 1)) + DaysInMonth(year, month)
      ensures forall i :: 0 <= i < Weekday(Date(year, month, 1)) ==> cells[i] == Blank
      ensures forall d :: 1 <= d <= DaysInMonth(year, month) ==>
        cells[Weekday(Date(year, month, 1)) + d - 1] == CellFor(records, today, year, month, d)
      ensures forall i :: Weekday(Date(year, month, 1)) <= i < |cells| ==>
        && cells[i].DayCell?
        && cells[i].day == i - Weekday(Date(year, month, 1)) + 1
        && i % 7 == Weekday(Date(year, month, cells[i].day))
    {
      var firstDayWeekday := Weekday(Date(year, month, 1));
      var blanks := LeadingBlanks(firstDayWeekday);
      cells := AppendDayCells(records, today, blanks);
      DayCellColumns(records, today, year, month, cells);
    }

    /** The second loop of `renderCalendarDays`: one cell per day of the month, in order, after `prefix`. */
    method AppendDayCells(records: RecordMap, today: Date, prefix: seq<Cell>) returns (cells: seq<Cell>)
      requires Valid()
      ensures |cells| == |prefix| + DaysInMonth(year, month)
      ensures forall i :: 0 <= i < |prefix| ==> cells[i] == prefix[i]
      ensures forall d :: 1 <= d <= DaysInMonth(year, month) ==> cells[|prefix| + d - 1] == CellFor(records, today, year, month, d)
    {
      var daysInMonth := DaysInMonth(year, month);
      cells := prefix;
      for day := 1 to daysInMonth + 1
        invariant |cells| == |prefix| + day - 1
        invariant forall i :: 0 <= i < |prefix| ==> cells[i] == prefix[i]
        invariant forall d :: 1 <= d < day ==> cells[|prefix| + d - 1] == CellFor(records, today, year, month, d)
      {
        var dateKey := GetDateKey(day);
        var trainingInfo := Lookup(records, Date(year, month, day));
        var isToday := Date(year, month, day) == today;
        ghost var before := cells;
        cells := cells + [DayCell(day, dateKey, isToday, trainingInfo)];
        forall d | 1 <= d < day + 1
          ensures cells[|prefix| + d - 1] == CellFor(records, today, year, month, d)
        {
          if d < day {
            assert cells[|prefix| + d - 1] == before[|prefix| + d - 1];
          }
        }
      }
    }

    /** `calculateMonthlyStats` of the calendar: the same walk, over the month on view. */
    method ViewedMonthStats(records: RecordMap) returns (stats: MonthlyStats)
      requires Valid()
      ensures stats == MonthStats(records, year, month)
      ensures Balanced(stats, DaysInViewedMonth())
    {
      stats := CalculateMonthlyStats(records, year, month);
      MonthStatsBalanced(records, year, month);
    }

    /** The advice shown under the calendar: the rules of `generateTrainingAdvice` applied to the month on view. */
    method MonthlyAdvice(records: RecordMap) returns (advice: seq<Advice.TrainingAdvice>)
      requires Valid()
      ensures Advice.AllEntries(advice)
      ensures forall k :: k in Advice.Kinds(advice) <==> Advice.Applies(MonthStats(records, year, month), k)
      ensures Advice.GroupsIncrease(Advice.Kinds(advice))
    {
      var monthlyStats := ViewedMonthStats(records);
      advice := Advice.GenerateTrainingAdvice(monthlyStats);
    }

    /**
     * `handleGeneratePlan`: next week's plan from the statistics of the
     * month on view, opened for display; the month and the selection stay.
     * The calendar's copy of the plan generator labels and schedules entry
     * `i` by weekday `i` whatever date it falls on, as the statistics
     * page's does (see `WeeklyPlan.AsWrittenLabelsLagDates`).
     */
    method HandleGeneratePlan(records: RecordMap, today: Date)
      requires Valid() && ValidDate(today)
      modifies this
      ensures Valid() && showPlan
      ensures year == old(year) && month == old(month) && selected == old(selected)
      ensures |weeklyPlan| == 7
      ensures var f := WeeklyPlan.Flags(MonthStats(records, year, month));
        forall i :: 0 <= i < 7 ==>
          weeklyPlan[i] == WeeklyPlan.EntryFor(WeeklyPlan.ScheduledSlot(f, i),
            DateKey(WeeklyPlan.PlanDate(today, i)), WeeklyPlan.WeekdaysFull[i])
    {
      var monthlyStats := ViewedMonthStats(records);
      var plan := WeeklyPlan.GenerateWeeklyPlanAsWritten(monthlyStats, today);
      weeklyPlan := plan;
      showPlan := true;
    }
  }

  /** After the blanks, each day's cell sits in the column of its weekday. */
  lemma DayCellColumns(records: RecordMap, today: Date, y: int, m: int, cells: seq<Cell>)
    requires 1 <= m <= 12
    requires |cells| == Weekday(Date(y, m, 1)) + DaysInMonth(y, m)
    requires forall d :: 1 <= d <= DaysInMonth(y, m) ==>
      cells[Weekday(Date(y, m, 1)) + d - 1] == CellFor(records, today, y, m, d)
    ensures forall i :: Weekday(Date(y, m, 1)) <= i < |cells| ==>
      && cells[i].DayCell?
      && cells[i].day == i - Weekday(Date(y, m, 1)) + 1
      && i % 7 == Weekday(Date(y, m, cells[i].day))
  {
    var w := Weekday(Date(y, m, 1));
    forall i | w <= i < |cells|
      ensures cells[i].DayCell? && cells[i].day == i - w + 1
      ensures i % 7 == Weekday(Date(y, m, cells[i].day))
    {
      var d := i - w + 1;
      assert cells[w + d - 1] == CellFor(records, today, y, m, d);
      GridColumn(y, m, d);
    }
  }

  /** Distinct days of the month on view get distinct keys. */
  lemma GetDateKeyInjective(view: CalendarView, a: int, b: int)
    requires view.Valid()
    requires 1 <= a <= DaysInMonth(view.year, view.month) && 1 <= b <= DaysInMonth(view.year, view.month)
    requires view.GetDateKey(a) == view.GetDateKey(b)
    ensures a == b
  {
    DateKeyInjective(Date(view.year, view.month, a), Date(view.year, view.month, b));
  }

  /**
   * In a four-digit year the key of a day of the month on view is
   * "YYYY-MM-DD" with the month and the day zero-padded to two digits.
   */
  lemma GetDateKeyLayout(view: CalendarView, day: int)
    requires view.Valid() && 1000 <= view.year <= 9999
    requires 1 <= day <= DaysInMonth(view.year, view.month)
    ensures var k := view.GetDateKey(day);
      && |k| == 10 && k[4] == '-' && k[7] == '-'
      && k[5] == Digit(view.month / 10) && k[6] == Digit(view.month % 10)
      && k[8] == Digit(day / 10) && k[9] == Digit(day % 10)
  {
    DateKeyFourDigitYear(Date(view.year, view.month, day));
  }
}
