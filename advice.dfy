/**
 * The training advice of the statistics page and the calendar
 * (`generateTrainingAdvice`). The percentages of light, moderate and
 * intense days, and the mean session length, are compared with fixed
 * thresholds; each comparison `a / t * 100 < p` is written as the integer
 * comparison `100 * a < p * t`, which agrees with the floating-point one for
 * every month-sized count of days.
 */
module Advice {
  import opened MonthlyStatistics

  datatype AdviceType = Success | Warning | Info

  datatype AdviceKind =
    | StartJourney     // no training this month
    | LowFrequency     // fewer than 8 days
    | NeedRecovery     // more than 20 days
    | LightShortage    // under half the days light
    | TooMuchIntense   // over 30% of the days intense
    | AddChallenge     // under 5% intense, more than 10 days
    | ExtendDuration   // sessions under 45 minutes on average
    | TooLong          // sessions over 120 minutes on average
    | WellBalanced     // the distribution the page calls reasonable

  function Severity(k: AdviceKind): AdviceType {
    match k
    case StartJourney => Info
    case LowFrequency => Warning
    case NeedRecovery => Warning
    case LightShortage => Warning
    case TooMuchIntense => Warning
    case AddChallenge => Info
    case ExtendDuration => Info
    case TooLong => Warning
    case WellBalanced => Success
  }

  function Title(k: AdviceKind): string {
    match k
    case StartJourney => "开始你的训练之旅"
    case LowFrequency => "训练频率偏低"
    case NeedRecovery => "注意训练恢复"
    case LightShortage => "轻松训练不足"
    case TooMuchIntense => "高强度训练过多"
    case AddChallenge => "可以适当增加挑战"
    case ExtendDuration => "可以适当延长训练时间"
    case TooLong => "训练时长较长"
    case WellBalanced => "训练安排很合理！"
  }

  /** One piece of advice as the page renders it (its description and suggestions are left out). */
  datatype TrainingAdvice = TrainingAdvice(kind: AdviceKind, adviceType: AdviceType, title: string)

  function Entry(k: AdviceKind): TrainingAdvice {
    TrainingAdvice(k, Severity(k), Title(k))
  }

  /** The block of `generateTrainingAdvice` a kind is pushed from; blocks run in this order. */
  function Group(k: AdviceKind): nat {
    match k
    case StartJourney => 0
    case LowFrequency => 1
    case NeedRecovery => 1
    case LightShortage => 2
    case TooMuchIntense => 3
    case AddChallenge => 3
    case ExtendDuration => 4
    case TooLong => 4
    case WellBalanced => 5
  }

  /**
   * Light 50-75%, moderate 15-35%, intense 10-25% of the days, and 8 to 20
   * training days in the month.
   */
  predicate IsBalanced(s: MonthlyStats) {
    var t, l, m, i := s.totalDays, s.lightDays, s.moderateDays, s.intenseDays;
    && 2 * l >= t && 4 * l <= 3 * t
    && 20 * m >= 3 * t && 20 * m <= 7 * t
    && 10 * i >= t && 4 * i <= t
    && 8 <= t <= 20
  }

  /** When each piece of advice is due, independently of the others. */
  predicate Applies(s: MonthlyStats, k: AdviceKind) {
    var t, l, i, d := s.totalDays, s.lightDays, s.intenseDays, s.totalDuration;
    match k
    case StartJourney => t == 0
    case LowFrequency => 0 < t < 8
    case NeedRecovery => t > 20
    case LightShortage => t > 0 && 2 * l < t
    case TooMuchIntense => t > 0 && 10 * i > 3 * t
    case AddChallenge => t > 10 && 20 * i < t
    case ExtendDuration => t > 0 && d < 45 * t
    case TooLong => t > 0 && d > 120 * t
    case WellBalanced => IsBalanced(s)
  }

  function Kinds(advice: seq<TrainingAdvice>): (ks: seq<AdviceKind>)
    ensures |ks| == |advice|
    ensures forall j :: 0 <= j < |advice| ==> ks[j] == advice[j].kind
  {
    seq(|advice|, j requires 0 <= j < |advice| => advice[j].kind)
  }

  /** Every element carries the severity and title of its kind. */
  predicate AllEntries(advice: seq<TrainingAdvice>) {
    forall j :: 0 <= j < |advice| ==> advice[j] == Entry(advice[j].kind)
  }

  /** `advice.push({...})` with the entry of kind `k`. */
  function Push(advice: seq<TrainingAdvice>, k: AdviceKind): (r: seq<TrainingAdvice>)
    requires AllEntries(advice)
    ensures Kinds(r) == Kinds(advice) + [k]
    ensures AllEntries(r)
  {
    advice + [Entry(k)]
  }

  /** Each entry comes from a later block than the one before it. */
  predicate GroupsIncrease(ks: seq<AdviceKind>) {
    forall a, b :: 0 <= a < b < |ks| ==> Group(ks[a]) < Group(ks[b])
  }

  /** The frequency block: too few days, or else too many. */
  function FrequencyAdvice(s: MonthlyStats): seq<AdviceKind> {
    if s.totalDays < 8 then [LowFrequency] else if s.totalDays > 20 then [NeedRecovery] else []
  }

  /** The light-share block. */
  function LightAdvice(s: MonthlyStats): seq<AdviceKind> {
    if 2 * s.lightDays < s.totalDays then [LightShortage] else []
  }

  /** The intense-share block: too much, or else room for a challenge in a busy month. */
  function IntenseAdvice(s: MonthlyStats): seq<AdviceKind> {
    if 10 * s.intenseDays > 3 * s.totalDays then [TooMuchIntense]
    else if 20 * s.intenseDays < s.totalDays && s.totalDays > 10 then [AddChallenge]
    else []
  }

  /** The session-length block: mean under 45 minutes, or else over 120. */
  function DurationAdvice(s: MonthlyStats): seq<AdviceKind> {
    if s.totalDuration < 45 * s.totalDays then [ExtendDuration]
    else if s.totalDuration > 120 * s.totalDays then [TooLong]
    else []
  }

  function BalanceAdvice(s: MonthlyStats): seq<AdviceKind> {
    if IsBalanced(s) then [WellBalanced] else []
  }

  /** The kinds the five blocks of a month with training push, in order. */
  function Due(s: MonthlyStats): seq<AdviceKind> {
    FrequencyAdvice(s) + LightAdvice(s) + IntenseAdvice(s) + DurationAdvice(s) + BalanceAdvice(s)
  }

  /** In a month with training, the blocks push at most one kind each, in block order. */
  lemma DueShape(s: MonthlyStats)
    requires s.totalDays > 0
    ensures |Due(s)| <= 5
    ensures GroupsIncrease(Due(s))
  {
    var f, l, i, d, b := FrequencyAdvice(s), LightAdvice(s), IntenseAdvice(s), DurationAdvice(s), BalanceAdvice(s);
    assert forall k :: k in f ==> Group(k) == 1;
    assert forall k :: k in l ==> Group(k) == 2;
    assert forall k :: k in i ==> Group(k) == 3;
    assert forall k :: k in d ==> Group(k) == 4;
    assert forall k :: k in b ==> Group(k) == 5;
    assert |f| <= 1 && |l| <= 1 && |i| <= 1 && |d| <= 1 && |b| <= 1;
  }

  /** In a month with training, the blocks push exactly the kinds whose rules apply. */
  lemma DueMembers(s: MonthlyStats)
    requires s.totalDays > 0
    ensures forall k :: k in Due(s) <==> Applies(s, k)
  {
    var f, l, i, d, b := FrequencyAdvice(s), LightAdvice(s), IntenseAdvice(s), DurationAdvice(s), BalanceAdvice(s);
    forall k ensures k in Due(s) <==> Applies(s, k) {
      assert k in Due(s) <==> k in f || k in l || k in i || k in d || k in b;
    }
  }

  /** The advice of a month is exactly its due kinds, whatever the entries' other fields. */
  lemma AdviceOfDue(s: MonthlyStats, advice: seq<TrainingAdvice>)
    requires s.totalDays > 0 && Kinds(advice) == Due(s)
    ensures forall k :: k in Kinds(advice) <==> Applies(s, k)
    ensures GroupsIncrease(Kinds(advice))
    ensures |advice| <= 5
  {
    DueShape(s);
    DueMembers(s);
  }

  /** A month without training gets only the start-up hint. */
  lemma StartOnly(s: MonthlyStats, advice: seq<TrainingAdvice>)
    requires s.totalDays == 0 && Kinds(advice) == [StartJourney]
    ensures forall k :: k in Kinds(advice) <==> Applies(s, k)
    ensures GroupsIncrease(Kinds(advice))
    ensures |advice| <= 5
  {
  }

  method GenerateTrainingAdvice(stats: MonthlyStats) returns (advice: seq<TrainingAdvice>)
    ensures AllEntries(advice)
    ensures forall k :: k in Kinds(advice) <==> Applies(stats, k)
    ensures GroupsIncrease(Kinds(advice))
    ensures stats.totalDays == 0 ==> Kinds(advice) == [StartJourney]
    ensures |advice| <= 5
  {
    advice := [];
    if stats.totalDays == 0 {
      advice := Push(advice, StartJourney);
      StartOnly(stats, advice);
      return;
    }
    var t := stats.totalDays;
    if t < 8 {
      advice := Push(advice, LowFrequency);
    } else if t > 20 {
      advice := Push(advice, NeedRecovery);
    }
    assert Kinds(advice) == FrequencyAdvice(stats);
    if 2 * stats.lightDays < t {
      advice := Push(advice, LightShortage);
    }
    assert Kinds(advice) == FrequencyAdvice(stats) + LightAdvice(stats);
    if 10 * stats.intenseDays > 3 * t {
      advice := Push(advice, TooMuchIntense);
    } else if 20 * stats.intenseDays < t && t > 10 {
      advice := Push(advice, AddChallenge);
    }
    assert Kinds(advice) == FrequencyAdvice(stats) + LightAdvice(stats) + IntenseAdvice(stats);
    if stats.totalDuration < 45 * t {
      advice := Push(advice, ExtendDuration);
    } else if stats.totalDuration > 120 * t {
      advice := Push(advice, TooLong);
    }
    assert Kinds(advice) == FrequencyAdvice(stats) + LightAdvice(stats) + IntenseAdvice(stats) + DurationAdvice(stats);
    if IsBalanced(stats) {
      advice := Push(advice, WellBalanced);
    }
    assert Kinds(advice) == Due(stats);
    AdviceOfDue(stats, advice);
  }

  /** The only two advice rules that can both be triggered by the intense share are never due together. */
  lemma IntenseAdviceExclusive(s: MonthlyStats)
    ensures !(Applies(s, TooMuchIntense) && Applies(s, AddChallenge))
  {
  }

  /**
   * A balanced month gets no warning about frequency, light share or
   * intense share, and never a start-up hint.
   */
  lemma BalancedExcludesWarnings(s: MonthlyStats)
    requires Applies(s, WellBalanced)
    ensures !Applies(s, StartJourney) && !Applies(s, LowFrequency) && !Applies(s, NeedRecovery)
    ensures !Applies(s, LightShortage) && !Applies(s, TooMuchIntense) && !Applies(s, AddChallenge)
  {
  }
}
