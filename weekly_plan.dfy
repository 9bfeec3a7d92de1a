/**
 * The weekly training plan (`generateWeeklyPlan` and `getTrainingDetails`):
 * a base week of rest and training slots, adjusted by five flags derived
 * from a month's statistics, laid out over the seven days from the next
 * Monday on, each training slot filled in with its duration, description
 * and focus points.
 */
module WeeklyPlan {
  import opened Dates
  import opened DateKeys
  import opened Records
  import opened MonthlyStatistics
  import opened Wrappers

  datatype TrainingType = Technique | Fitness | Match | Recovery | Combined | Foundation

  function TypeName(t: TrainingType): string {
    match t
    case Technique => "技术训练"
    case Fitness => "体能训练"
    case Match => "对抗训练"
    case Recovery => "恢复训练"
    case Combined => "综合训练"
    case Foundation => "基础训练"
  }

  /** A slot of the week: a rest day, or a session of some intensity and type. */
  datatype Slot = Rest | Train(intensity: Intensity, kind: TrainingType)

  /** Slots by weekday, 0 = Sunday: rest on Sunday and Wednesday. */
  const BaseSchedule: seq<Slot> := [
    Rest, Train(Light, Technique), Train(Moderate, Fitness), Rest,
    Train(High, Match), Train(Light, Recovery), Train(Moderate, Combined)]

  datatype PlanFlags = PlanFlags(
    needMoreLight: bool,
    needMoreIntense: bool,
    needLessIntense: bool,
    needMoreFrequency: bool,
    needLessFrequency: bool)

  /**
   * The flags of a month: light share under 50%, intense share under 10% or
   * over 30% (each only for a month with training), fewer than 8 or more
   * than 20 training days.
   */
  function Flags(s: MonthlyStats): PlanFlags {
    var t := s.totalDays;
    PlanFlags(
      t > 0 && 2 * s.lightDays < t,
      t > 0 && 10 * s.intenseDays < t,
      t > 0 && 10 * s.intenseDays > 3 * t,
      t < 8,
      t > 20)
  }

  /**
   * The slot for weekday `w` once all adjustments are made, stated slot by
   * slot: where two adjustments touch the same slot, the later one wins.
   */
  function ScheduledSlot(f: PlanFlags, w: int): Slot
    requires 0 <= w < 7
  {
    if w == 2 && f.needMoreLight then Train(Light, Technique)
    else if w == 3 && f.needMoreFrequency then Train(Light, Foundation)
    else if w == 4 && f.needLessIntense then Train(Moderate, Technique)
    else if w == 5 && f.needLessFrequency then Rest
    else if w == 6 && f.needMoreIntense && !f.needLessIntense then Train(High, Match)
    else if w == 6 && f.needMoreLight then Train(Light, Recovery)
    else BaseSchedule[w]
  }

  /** The adjustments of the base schedule, applied one after the other. */
  method AdjustSchedule(f: PlanFlags) returns (schedule: seq<Slot>)
    ensures |schedule| == 7
    ensures forall w :: 0 <= w < 7 ==> schedule[w] == ScheduledSlot(f, w)
  {
    schedule := BaseSchedule;
    if f.needMoreFrequency {
      schedule := schedule[3 := Train(Light, Foundation)];
    }
    if f.needLessFrequency {
      schedule := schedule[5 := Rest];
    }
    if f.needMoreLight {
      schedule := schedule[2 := Train(Light, Technique)];
      schedule := schedule[6 := Train(Light, Recovery)];
    }
    if f.needLessIntense {
      schedule := schedule[4 := Train(Moderate, Technique)];
    }
    if f.needMoreIntense && !f.needLessIntense {
      schedule := schedule[6 := Train(High, Match)];
    }
  }

  datatype TrainingDetails = TrainingDetails(duration: nat, description: string, focus: seq<string>)

  /** Minutes per session: 45 light, 60 moderate, 75 high. */
  function SessionMinutes(i: Intensity): nat {
    match i
    case Light => 45
    case Moderate => 60
    case High => 75
  }

  function Description(t: TrainingType): string {
    match t
    case Technique => "专注于基本技术动作的练习和改进"
    case Fitness => "提升身体素质和运动能力"
    case Match => "实战对抗，提升比赛能力"
    case Recovery => "低强度训练，促进身体恢复"
    case Combined => "技术与体能相结合的综合性训练"
    case Foundation => "基础动作和体能的入门训练"
  }

  function Focus(t: TrainingType): seq<string> {
    match t
    case Technique => ["发球练习", "正反手挥拍", "步法训练", "网前技术"]
    case Fitness => ["有氧耐力", "爆发力训练", "敏捷性练习", "核心力量"]
    case Match => ["单打对抗", "双打配合", "战术演练", "比赛模拟"]
    case Recovery => ["拉伸放松", "技术巩固", "轻松对练", "身体调整"]
    case Combined => ["技战术结合", "多球练习", "体能测试", "全面提升"]
    case Foundation => ["基本动作", "体能基础", "规则学习", "兴趣培养"]
  }

  /** `getTrainingDetails`: the duration follows the intensity, the text the type. */
  function GetTrainingDetails(i: Intensity, t: TrainingType): TrainingDetails {
    TrainingDetails(SessionMinutes(i), Description(t), Focus(t))
  }

  datatype PlannedTraining = PlannedTraining(
    kind: TrainingType,
    intensity: Intensity,
    duration: nat,
    description: string,
    focus: seq<string>)

  datatype PlanEntry = PlanEntry(date: string, dayName: string, isRest: bool, training: Option<PlannedTraining>)

  const WeekdaysFull: seq<string> := ["周日", "周一", "周二", "周三", "周四", "周五", "周六"]

  /** The entry a slot produces on a given date and under a given label. */
  function EntryFor(slot: Slot, date: string, dayName: string): PlanEntry {
    match slot
    case Rest => PlanEntry(date, dayName, true, None)
    case Train(i, t) =>
      var d := GetTrainingDetails(i, t);
      PlanEntry(date, dayName, false, Some(PlannedTraining(t, i, d.duration, d.description, d.focus)))
  }

  /** One entry of the plan: a bare rest day, or a training filled in by `getTrainingDetails`. */
  method MakeEntry(slot: Slot, dateString: string, dayName: string) returns (entry: PlanEntry)
    ensures entry == EntryFor(slot, dateString, dayName)
  {
    match slot {
      case Rest =>
        entry := PlanEntry(dateString, dayName, true, None);
      case Train(intensity, kind) =>
        var details := GetTrainingDetails(intensity, kind);
        entry := PlanEntry(dateString, dayName, false,
          Some(PlannedTraining(kind, intensity, details.duration, details.description, details.focus)));
    }
  }

  /** The fields of an entry: its date and label as given, a rest flag exactly for a rest slot. */
  lemma EntryForFields(slot: Slot, date: string, dayName: string)
    ensures EntryFor(slot, date, dayName).date == date
    ensures EntryFor(slot, date, dayName).dayName == dayName
    ensures EntryFor(slot, date, dayName).isRest <==> slot == Rest
    ensures Coherent(EntryFor(slot, date, dayName))
  {
  }

  /** `(8 - today.getDay()) % 7`: the days to wait for a Monday, none when today is one. */
  function DaysUntilMonday(today: Date): (n: nat)
    requires ValidDate(today)
    ensures n < 7
    ensures (Weekday(today) + n) % 7 == 1
  {
    (8 - Weekday(today)) % 7
  }

  /** The date of entry `i`: `i` days after the coming Monday. */
  function PlanDate(today: Date, i: nat): (d: Date)
    requires ValidDate(today)
    ensures ValidDate(d)
  {
    AddDays(AddDays(today, DaysUntilMonday(today)), i)
  }

  /** The dates of the plan are the seven days Monday to Sunday of one week. */
  lemma PlanDateWeekday(today: Date, i: nat)
    requires ValidDate(today)
    ensures Weekday(PlanDate(today, i)) == (1 + i) % 7
  {
    var monday := AddDays(today, DaysUntilMonday(today));
    WeekdayOfAddDays(today, DaysUntilMonday(today));
    assert Weekday(monday) == 1;
    WeekdayOfAddDays(monday, i);
  }

  /** An entry that trains says so, and its duration is the one its intensity prescribes. */
  predicate Coherent(e: PlanEntry) {
    && (e.isRest <==> e.training == None)
    && (e.training.Some? ==> e.training.value.duration == SessionMinutes(e.training.value.intensity))
  }

  /**
   * `generateWeeklyPlan` as written: entry `i` is dated `i` days after the
   * coming Monday, but is labelled and scheduled as weekday `i`, counted
   * from Sunday.
   */
  method GenerateWeeklyPlanAsWritten(stats: MonthlyStats, today: Date) returns (plan: seq<PlanEntry>)
    requires ValidDate(today)
    ensures |plan| == 7
    ensures forall i :: 0 <= i < 7 ==>
      plan[i] == EntryFor(ScheduledSlot(Flags(stats), i), DateKey(PlanDate(today, i)), WeekdaysFull[i])
  {
    var schedule := AdjustSchedule(Flags(stats));
    var nextMonday := AddDays(today, DaysUntilMonday(today));
    plan := [];
    for i := 0 to 7
      invariant |plan| == i
      invariant forall j :: 0 <= j < i ==>
        plan[j] == EntryFor(ScheduledSlot(Flags(stats), j), DateKey(PlanDate(today, j)), WeekdaysFull[j])
    {
      var planDate := AddDays(nextMonday, i);
      var dateString := DateKey(planDate);
      var entry := MakeEntry(schedule[i], dateString, WeekdaysFull[i]);
      ghost var before := plan;
      plan := plan + [entry];
      forall j | 0 <= j < i + 1
        ensures plan[j] == EntryFor(ScheduledSlot(Flags(stats), j), DateKey(PlanDate(today, j)), WeekdaysFull[j])
      {
        if j < i {
          assert plan[j] == before[j];
        }
      }
    }
  }

  /**
   * As written, every entry's label names the weekday before the one its
   * date falls on: the first entry, a Monday, reads 周日 and gets Sunday's
   * rest slot, and the last, a Sunday, reads 周六.
   */
  lemma AsWrittenLabelsLagDates(stats: MonthlyStats, today: Date, plan: seq<PlanEntry>, i: nat)
    requires ValidDate(today) && i < 7
    requires |plan| == 7
    requires forall j :: 0 <= j < 7 ==>
      plan[j] == EntryFor(ScheduledSlot(Flags(stats), j), DateKey(PlanDate(today, j)), WeekdaysFull[j])
    ensures plan[i].dayName == WeekdaysFull[(Weekday(PlanDate(today, i)) + 6) % 7]
    ensures plan[i].dayName != WeekdaysFull[Weekday(PlanDate(today, i))]
  {
    PlanDateWeekday(today, i);
    var w := Weekday(PlanDate(today, i));
    EntryForFields(ScheduledSlot(Flags(stats), i), DateKey(PlanDate(today, i)), WeekdaysFull[i]);
    NextIndex(i);
    WeekdayNamesDistinct(i, w);
  }

  lemma NextIndex(i: int)
    requires 0 <= i < 7
    ensures ((1 + i) % 7 + 6) % 7 == i
    ensures (1 + i) % 7 != i
  {
  }

  /** The seven weekday names are pairwise different. */
  lemma WeekdayNamesDistinct(a: int, b: int)
    requires 0 <= a < 7 && 0 <= b < 7 && a != b
    ensures WeekdaysFull[a] != WeekdaysFull[b]
  {
    assert WeekdaysFull[a][1] != WeekdaysFull[b][1];
  }

  /** The weekday of entry `i` of a week that starts on Monday. */
  function EntryWeekday(i: int): (w: int)
    requires 0 <= i < 7
    ensures 0 <= w < 7 && w == (1 + i) % 7
  {
    if i < 6 then i + 1 else 0
  }

  /**
   * The weekly plan with each date labelled and scheduled by its own
   * weekday, `getDay()` of the date: the same seven dates, and since they
   * run Monday to Sunday, entry `i` takes weekday `(1 + i) % 7`.
   */
  method GenerateWeeklyPlan(stats: MonthlyStats, today: Date) returns (plan: seq<PlanEntry>)
    requires ValidDate(today)
    ensures |plan| == 7
    ensures forall i :: 0 <= i < 7 ==>
      plan[i] == EntryFor(ScheduledSlot(Flags(stats), EntryWeekday(i)), DateKey(PlanDate(today, i)), WeekdaysFull[EntryWeekday(i)])
  {
    var schedule := AdjustSchedule(Flags(stats));
    var nextMonday := AddDays(today, DaysUntilMonday(today));
    plan := [];
    for i := 0 to 7
      invariant |plan| == i
      invariant forall j :: 0 <= j < i ==>
        plan[j] == EntryFor(ScheduledSlot(Flags(stats), EntryWeekday(j)), DateKey(PlanDate(today, j)), WeekdaysFull[EntryWeekday(j)])
    {
      var planDate := AddDays(nextMonday, i);
      var day := Weekday(planDate);
      PlanDateWeekday(today, i);
      var dateString := DateKey(planDate);
      var entry := MakeEntry(schedule[day], dateString, WeekdaysFull[day]);
      ghost var before := plan;
      plan := plan + [entry];
      forall j | 0 <= j < i + 1
        ensures plan[j] == EntryFor(ScheduledSlot(Flags(stats), EntryWeekday(j)), DateKey(PlanDate(today, j)), WeekdaysFull[EntryWeekday(j)])
      {
        if j < i {
          assert plan[j] == before[j];
        }
      }
    }
  }

  /**
   * In the plan every entry is labelled with the weekday its date falls
   * on, the dates are consecutive, every entry is coherent, and the
   * Sunday entry is always a rest day.
   */
  lemma PlanLabelsMatchDates(stats: MonthlyStats, today: Date, plan: seq<PlanEntry>, i: nat)
    requires ValidDate(today) && i < 7
    requires |plan| == 7
    requires forall j :: 0 <= j < 7 ==>
      plan[j] == EntryFor(ScheduledSlot(Flags(stats), EntryWeekday(j)), DateKey(PlanDate(today, j)), WeekdaysFull[EntryWeekday(j)])
    ensures plan[i].dayName == WeekdaysFull[Weekday(PlanDate(today, i))]
    ensures plan[i].date == DateKey(PlanDate(today, i))
    ensures Coherent(plan[i])
    ensures i > 0 ==> DayNumber(PlanDate(today, i)) == DayNumber(PlanDate(today, i - 1)) + 1
    ensures Weekday(PlanDate(today, i)) == 0 ==> plan[i].isRest
  {
    PlanDateWeekday(today, i);
    FixedSlots(Flags(stats));
    EntryForFields(ScheduledSlot(Flags(stats), EntryWeekday(i)), DateKey(PlanDate(today, i)), WeekdaysFull[EntryWeekday(i)]);
  }

  /** The two intense-share flags never hold together, so the last adjustment never undoes the one before. */
  lemma IntenseFlagsExclusive(s: MonthlyStats)
    ensures !(Flags(s).needMoreIntense && Flags(s).needLessIntense)
  {
  }

  /**
   * A month without training only asks for more frequency: the week gets a
   * Wednesday foundation session and otherwise keeps the base schedule.
   */
  lemma EmptyMonthSchedule(s: MonthlyStats, w: int)
    requires s.totalDays == 0 && 0 <= w < 7
    ensures ScheduledSlot(Flags(s), w) == if w == 3 then Train(Light, Foundation) else BaseSchedule[w]
  {
  }

  /** Sunday rests and Monday is light technique work, whatever the month looked like. */
  lemma FixedSlots(f: PlanFlags)
    ensures ScheduledSlot(f, 0) == Rest
    ensures ScheduledSlot(f, 1) == Train(Light, Technique)
  {
  }

  /** With a low intense share the Saturday slot becomes a match session even when light work is short too. */
  lemma MoreIntenseWinsSaturday(s: MonthlyStats)
    requires Flags(s).needMoreIntense
    ensures ScheduledSlot(Flags(s), 6) == Train(High, Match)
  {
  }
}
