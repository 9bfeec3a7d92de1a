/**
 * Check-in streaks. The current streak walks backward one calendar day at
 * a time from today (or from yesterday when today has no record yet) and
 * counts keyed days until the first day without a record. The max streak
 * sorts all keys by date and scans for the longest run of neighbours
 * exactly one day apart. Both count calendar days, so both are stated over
 * day numbers: consecutive days are consecutive integers.
 */
module Streaks {
  import opened Dates
  import opened Records

  // ----- current streak -----

  /** Where the backward walk begins: today if it is checked in, else yesterday. */
  function StreakStart(records: RecordMap, today: Date): (start: Date)
    requires ValidDate(today)
    ensures ValidDate(start)
  {
    if today in records then today else PrevDay(today)
  }

  /** `s` days going back from `start` are all keyed, and the day before them is not. */
  ghost predicate IsBackwardRun(records: RecordMap, start: Date, s: nat)
    requires ValidDate(start)
  {
    && (forall i :: 0 <= i < s ==> StepBack(start, i) in records)
    && StepBack(start, s) !in records
  }

  /**
   * The walk after `streak` steps back from `start`: it stands on
   * `current`, every day it left was keyed, and the days it left (`seen`)
   * are distinct keys, so the walk cannot outrun the number of records.
   */
  ghost predicate WalkState(records: RecordMap, start: Date, streak: nat, current: Date, seen: set<Date>) {
    && ValidDate(start) && ValidDate(current)
    && current == StepBack(start, streak)
    && (forall i :: 0 <= i < streak ==> StepBack(start, i) in records)
    && seen <= records.Keys && |seen| == streak
    && (forall k :: k in seen ==> ValidDate(k) && DayNumber(current) < DayNumber(k))
  }

  lemma WalkStep(records: RecordMap, start: Date, streak: nat, current: Date, seen: set<Date>)
    requires WalkState(records, start, streak, current, seen) && current in records
    ensures streak < |records|
    ensures WalkState(records, start, streak + 1, PrevDay(current), seen + {current})
  {
    assert StepBack(start, streak + 1) == PrevDay(current);
    forall i | 0 <= i < streak + 1
      ensures StepBack(start, i) in records
    {
      if i == streak {
        assert StepBack(start, i) == current;
      }
    }
    assert records.Keys == (seen + {current}) + (records.Keys - (seen + {current}));
  }

  /** `calculateCurrentStreak`: the `while (true)` walk with a mutable date. */
  method CurrentStreak(records: RecordMap, today: Date) returns (streak: nat)
    requires ValidDate(today) && ValidKeys(records)
    ensures records == map[] ==> streak == 0
    ensures IsBackwardRun(records, StreakStart(records, today), streak)
  {
    if |records| == 0 {
      return 0;
    }
    streak := 0;
    ghost var start := StreakStart(records, today);
    ghost var seen: set<Date> := {};
    var currentDate := today;
    if today !in records {
      currentDate := PrevDay(currentDate);
    }
    assert currentDate == start == StepBack(start, 0);
    while true
      invariant WalkState(records, start, streak, currentDate, seen)
      decreases |records| - streak
    {
      if currentDate in records {
        WalkStep(records, start, streak, currentDate, seen);
        seen := seen + {currentDate};
        streak := streak + 1;
        currentDate := PrevDay(currentDate);
      } else {
        break;
      }
    }
  }

  // ----- max streak -----

  /** The day numbers of all keys. */
  ghost function DaySet(records: RecordMap): set<int>
    requires ValidKeys(records)
  {
    set k | k in records :: DayNumber(k)
  }

  /** Keys are distinct dates, so there are as many day numbers as records. */
  lemma {:induction false} DaySetSize(records: RecordMap)
    requires ValidKeys(records)
    ensures |DaySet(records)| == |records|
    decreases |records|
  {
    if records != map[] {
      var k :| k in records;
      var rest := records - {k};
      assert rest.Keys == records.Keys - {k};
      DaySetSize(rest);
      DaySetRemove(records, k);
    }
  }

  /** Removing one key removes exactly its day number, which no other key has. */
  lemma DaySetRemove(records: RecordMap, k: Date)
    requires ValidKeys(records) && k in records
    ensures DaySet(records) == DaySet(records - {k}) + {DayNumber(k)}
    ensures DayNumber(k) !in DaySet(records - {k})
  {
    var rest := records - {k};
    forall x | x in DaySet(records)
      ensures x in DaySet(rest) + {DayNumber(k)}
    {
      var j :| j in records && DayNumber(j) == x;
      if j != k {
        assert j in rest;
      }
    }
    if DayNumber(k) in DaySet(rest) {
      var k2 :| k2 in rest && DayNumber(k2) == DayNumber(k);
      DayNumberInjective(k, k2);
      assert false;
    }
  }

  /** Every day `first` .. `first + len - 1` is in `days`. */
  ghost predicate ConsecutiveRun(days: set<int>, first: int, len: int) {
    forall d :: first <= d < first + len ==> d in days
  }

  /** `r` is the length of the longest block of consecutive days in `days`. */
  ghost predicate IsLongestRun(days: set<int>, r: nat) {
    && (exists first :: ConsecutiveRun(days, first, r))
    && (forall first, len :: ConsecutiveRun(days, first, len) ==> len <= r)
  }

  /** The values a sequence holds. */
  ghost function Elements(s: seq<int>): set<int> {
    set x | x in s
  }

  predicate StrictlyIncreasing(s: seq<int>) {
    forall i, j :: 0 <= i < j < |s| ==> s[i] < s[j]
  }

  /** `s[j ..< j + len]` steps by exactly one from each element to the next. */
  predicate IsSeqRun(s: seq<int>, j: int, len: int) {
    0 <= j && 0 <= len && j + len <= |s| &&
    forall t :: j < t < j + len ==> s[t] == s[t - 1] + 1
  }

  lemma {:induction false} EarliestExists(s: set<Date>)
    requires s != {} && forall k :: k in s ==> ValidDate(k)
    ensures exists e :: e in s && ValidDate(e) && forall k :: k in s ==> ValidDate(k) && DayNumber(e) <= DayNumber(k)
    decreases |s|
  {
    var x :| x in s;
    if s != {x} {
      EarliestExists(s - {x});
      var m :| m in s - {x} && ValidDate(m) && forall k :: k in s - {x} ==> ValidDate(k) && DayNumber(m) <= DayNumber(k);
      if DayNumber(x) < DayNumber(m) {
        assert forall k :: k in s ==> ValidDate(k) && DayNumber(x) <= DayNumber(k);
      } else {
        assert forall k :: k in s ==> ValidDate(k) && DayNumber(m) <= DayNumber(k);
      }
    } else {
      assert forall k :: k in s ==> ValidDate(k) && DayNumber(x) <= DayNumber(k);
    }
  }

  /** Dates in strictly increasing calendar order. */
  ghost predicate Ascending(s: seq<Date>) {
    forall i, j :: 0 <= i < j < |s| ==> ValidDate(s[i]) && ValidDate(s[j]) && DayNumber(s[i]) < DayNumber(s[j])
  }

  /** Selection into ascending order: every key is placed or still to place, each once. */
  ghost predicate SortPlaced(keys: set<Date>, sorted: seq<Date>, rest: set<Date>) {
    && (forall k :: k in keys <==> k in sorted || k in rest)
    && (forall i :: 0 <= i < |sorted| ==> ValidDate(sorted[i]))
    && (forall k :: k in rest ==> ValidDate(k))
    && |sorted| + |rest| == |keys|
  }

  /** What is placed is ascending, and it all precedes what is left. */
  ghost predicate SortOrdered(sorted: seq<Date>, rest: set<Date>)
    requires forall i :: 0 <= i < |sorted| ==> ValidDate(sorted[i])
    requires forall k :: k in rest ==> ValidDate(k)
  {
    && Ascending(sorted)
    && (forall i, k :: 0 <= i < |sorted| && k in rest && ValidDate(sorted[i]) && ValidDate(k) ==> DayNumber(sorted[i]) < DayNumber(k))
  }

  lemma SortPlacedStep(keys: set<Date>, sorted: seq<Date>, rest: set<Date>, e: Date)
    requires SortPlaced(keys, sorted, rest) && e in rest
    ensures SortPlaced(keys, sorted + [e], rest - {e})
  {
  }

  /** Moving the earliest remaining key to the end of the placed ones keeps them ascending. */
  lemma SortOrderedStep(sorted: seq<Date>, rest: set<Date>, e: Date)
    requires forall i :: 0 <= i < |sorted| ==> ValidDate(sorted[i])
    requires forall k :: k in rest ==> ValidDate(k)
    requires SortOrdered(sorted, rest)
    requires e in rest && forall k :: k in rest ==> DayNumber(e) <= DayNumber(k)
    ensures SortOrdered(sorted + [e], rest - {e})
  {
    forall k | k in rest - {e}
      ensures DayNumber(e) < DayNumber(k)
    {
      if DayNumber(e) == DayNumber(k) {
        DayNumberInjective(e, k);
      }
    }
    var sorted' := sorted + [e];
    forall i, j | 0 <= i < j < |sorted'|
      ensures ValidDate(sorted'[i]) && ValidDate(sorted'[j]) && DayNumber(sorted'[i]) < DayNumber(sorted'[j])
    {
      if j < |sorted| {
        assert sorted'[i] == sorted[i] && sorted'[j] == sorted[j];
      }
    }
  }

  /** `Object.keys(trainingData).sort(...)`: the keys in ascending date order. */
  method SortDates(keys: set<Date>) returns (sorted: seq<Date>)
    requires forall k :: k in keys ==> ValidDate(k)
    ensures forall k :: k in sorted <==> k in keys
    ensures |sorted| == |keys|
    ensures forall i :: 0 <= i < |sorted| ==> ValidDate(sorted[i])
    ensures Ascending(sorted)
  {
    sorted := [];
    var rest := keys;
    while rest != {}
      invariant SortPlaced(keys, sorted, rest)
      invariant SortOrdered(sorted, rest)
      decreases |rest|
    {
      EarliestExists(rest);
      var e :| e in rest && ValidDate(e) && forall k :: k in rest ==> ValidDate(k) && DayNumber(e) <= DayNumber(k);
      SortPlacedStep(keys, sorted, rest, e);
      SortOrderedStep(sorted, rest, e);
      sorted := sorted + [e];
      rest := rest - {e};
    }
  }

  /** `s[j ..< i]` is a run of neighbours one apart. */
  predicate RunEndingAt(s: seq<int>, j: int, i: int) {
    IsSeqRun(s, j, i - j)
  }

  lemma {:induction false} SeqRunValues(s: seq<int>, j: int, len: int, t: int)
    requires IsSeqRun(s, j, len) && 0 <= t < len
    ensures s[j + t] == s[j] + t
    decreases t
  {
    if t > 0 {
      SeqRunValues(s, j, len, t - 1);
    }
  }

  /** A run of neighbours one apart in the sorted days is a block of consecutive days. */
  lemma SeqRunIsConsecutive(s: seq<int>, j: int, len: int)
    requires IsSeqRun(s, j, len) && len > 0
    ensures ConsecutiveRun(Elements(s), s[j], len)
  {
    forall d | s[j] <= d < s[j] + len
      ensures d in s
    {
      SeqRunValues(s, j, len, d - s[j]);
    }
  }

  /** Strictly increasing integers grow by at least one per position. */
  lemma {:induction false} IncreasingGap(s: seq<int>, a: int, b: int)
    requires StrictlyIncreasing(s) && 0 <= a <= b < |s|
    ensures s[a] + (b - a) <= s[b]
    decreases b - a
  {
    if a < b {
      IncreasingGap(s, a, b - 1);
    }
  }

  lemma {:induction false} ConsecutiveIndices(s: seq<int>, first: int, len: nat, j: int, t: nat)
    requires StrictlyIncreasing(s)
    requires ConsecutiveRun(Elements(s), first, len)
    requires 0 <= j < |s| && s[j] == first && t < len
    ensures j + t < |s| && s[j + t] == first + t
    decreases t
  {
    if t > 0 {
      ConsecutiveIndices(s, first, len, j, t - 1);
      assert first + t in Elements(s);
      var p :| 0 <= p < |s| && s[p] == first + t;
      if p <= j + t - 1 {
        assert false;
      }
      if j + t < p {
        IncreasingGap(s, j + t - 1, p);
        assert false;
      }
    }
  }

  /** A block of consecutive days shows up in the sorted days as a run of neighbours one apart. */
  lemma ConsecutiveIsSeqRun(s: seq<int>, first: int, len: nat)
    requires StrictlyIncreasing(s)
    requires ConsecutiveRun(Elements(s), first, len) && len > 0
    ensures exists j :: IsSeqRun(s, j, len)
  {
    assert first in Elements(s);
    var j :| 0 <= j < |s| && s[j] == first;
    ConsecutiveIndices(s, first, len, j, len - 1);
    forall t | j < t < j + len
      ensures s[t] == s[t - 1] + 1
    {
      ConsecutiveIndices(s, first, len, j, t - j);
      ConsecutiveIndices(s, first, len, j, t - 1 - j);
    }
    assert IsSeqRun(s, j, len);
  }

  /** The day numbers of a sequence of dates, position by position. */
  ghost function DayNumbers(s: seq<Date>): (d: seq<int>)
    requires forall i :: 0 <= i < |s| ==> ValidDate(s[i])
    ensures |d| == |s|
    ensures forall i :: 0 <= i < |s| ==> ValidDate(s[i]) && d[i] == DayNumber(s[i])
  {
    seq(|s|, i requires 0 <= i < |s| && ValidDate(s[i]) => DayNumber(s[i]))
  }

  /** The keys in ascending order give the day numbers of the records in increasing order. */
  lemma SortedDaySet(records: RecordMap, sorted: seq<Date>)
    requires ValidKeys(records)
    requires forall k :: k in sorted <==> k in records
    requires forall i :: 0 <= i < |sorted| ==> ValidDate(sorted[i])
    requires Ascending(sorted)
    ensures StrictlyIncreasing(DayNumbers(sorted))
    ensures Elements(DayNumbers(sorted)) == DaySet(records)
  {
    var days := DayNumbers(sorted);
    forall x | x in DaySet(records)
      ensures x in Elements(days)
    {
      var k :| k in records && DayNumber(k) == x;
      var i :| 0 <= i < |sorted| && sorted[i] == k;
      assert days[i] == x;
    }
    forall x | x in Elements(days)
      ensures x in DaySet(records)
    {
      var i :| 0 <= i < |days| && days[i] == x;
      assert sorted[i] in records;
    }
  }

  /** With no days at all the longest block is empty. */
  lemma NoLongerRun(days: set<int>)
    requires days == {}
    ensures IsLongestRun(days, 0)
  {
    assert ConsecutiveRun(days, 0, 0);
    forall first, len | ConsecutiveRun(days, first, len)
      ensures len <= 0
    {
      assert len > 0 ==> first in days;
    }
  }

  /** The longest run of neighbours one apart in the sorted days is the longest block of consecutive days. */
  lemma LongestFromSeq(s: seq<int>, best: int, m: nat)
    requires StrictlyIncreasing(s) && m > 0 && IsSeqRun(s, best, m)
    requires forall j, len :: IsSeqRun(s, j, len) ==> len <= m
    ensures IsLongestRun(Elements(s), m)
  {
    SeqRunIsConsecutive(s, best, m);
    forall first, len | ConsecutiveRun(Elements(s), first, len)
      ensures len <= m
    {
      if len > 0 {
        ConsecutiveIsSeqRun(s, first, len);
      }
    }
  }

  /**
   * The scan after the first `i` sorted days: the run in progress has
   * length `current` and is the longest one ending there, and `max` is the
   * longest run seen so far, one instance of which starts at `best`.
   */
  ghost predicate ScanState(days: seq<int>, i: int, current: int, max: int, best: int) {
    && 1 <= current <= i <= |days| && current <= max <= i
    && IsSeqRun(days, i - current, current)
    && (forall j :: 0 <= j <= i && RunEndingAt(days, j, i) ==> i - j <= current)
    && IsSeqRun(days, best, max)
    && (forall j, len :: IsSeqRun(days, j, len) && j + len <= i ==> len <= max)
  }

  lemma ScanExtend(days: seq<int>, i: int, current: int, max: int, best: int)
    requires ScanState(days, i, current, max, best) && i < |days|
    requires days[i] - days[i - 1] == 1
    ensures ScanState(days, i + 1, current + 1,
      if max < current + 1 then current + 1 else max,
      if current + 1 > max then i + 1 - (current + 1) else best)
  {
    var next := i + 1;
    forall j | 0 <= j <= next && RunEndingAt(days, j, next)
      ensures next - j <= current + 1
    {
      if j < i {
        assert RunEndingAt(days, j, i);
      }
    }
    var max' := if max < current + 1 then current + 1 else max;
    forall j, len | IsSeqRun(days, j, len) && j + len <= next
      ensures len <= max'
    {
      if j + len == next {
        assert RunEndingAt(days, j, next);
      }
    }
  }

  lemma ScanBreak(days: seq<int>, i: int, current: int, max: int, best: int)
    requires ScanState(days, i, current, max, best) && i < |days|
    requires days[i] - days[i - 1] != 1
    ensures ScanState(days, i + 1, 1, max, best)
  {
    var next := i + 1;
    forall j | 0 <= j <= next && RunEndingAt(days, j, next)
      ensures next - j <= 1
    {
      if j < i {
        assert false;
      }
    }
    forall j, len | IsSeqRun(days, j, len) && j + len <= next
      ensures len <= max
    {
      if j + len == next {
        assert RunEndingAt(days, j, next);
      }
    }
  }

  /**
   * `calculateMaxStreak`: the longest block of consecutive calendar days
   * that all have a record; 0 exactly when there are no records, and never
   * more than the number of records.
   */
  method MaxStreak(records: RecordMap) returns (maxStreak: nat)
    requires ValidKeys(records)
    ensures maxStreak == 0 <==> records == map[]
    ensures maxStreak <= |records|
    ensures IsLongestRun(DaySet(records), maxStreak)
  {
    var sortedDates := SortDates(records.Keys);
    ghost var days := DayNumbers(sortedDates);
    SortedDaySet(records, sortedDates);
    DaySetSize(records);
    if |sortedDates| == 0 {
      assert records.Keys == {};
      NoLongerRun(DaySet(records));
      return 0;
    }
    ghost var best;
    maxStreak, best := LongestSortedRun(sortedDates);
    LongestFromSeq(days, best, maxStreak);
  }

  /** The scan of `calculateMaxStreak` over dates sorted into increasing day numbers. */
  method LongestSortedRun(sortedDates: seq<Date>) returns (maxStreak: nat, ghost best: int)
    requires |sortedDates| > 0
    requires forall i :: 0 <= i < |sortedDates| ==> ValidDate(sortedDates[i])
    ensures 0 < maxStreak <= |sortedDates|
    ensures IsSeqRun(DayNumbers(sortedDates), best, maxStreak)
    ensures forall j, len :: IsSeqRun(DayNumbers(sortedDates), j, len) ==> len <= maxStreak
  {
    ghost var days := DayNumbers(sortedDates);
    maxStreak := 1;
    var currentStreak := 1;
    best := 0;
    for i := 1 to |sortedDates|
      invariant ScanState(days, i, currentStreak, maxStreak, best)
    {
      var diffDays := DayNumber(sortedDates[i]) - DayNumber(sortedDates[i - 1]);
      if diffDays == 1 {
        ScanExtend(days, i, currentStreak, maxStreak, best);
        currentStreak := currentStreak + 1;
        if currentStreak > maxStreak {
          best := i + 1 - currentStreak;
        }
        maxStreak := if maxStreak < currentStreak then currentStreak else maxStreak;
      } else {
        ScanBreak(days, i, currentStreak, maxStreak, best);
        currentStreak := 1;
      }
    }
    forall j, len | IsSeqRun(days, j, len)
      ensures len <= maxStreak
    {
      assert j + len <= |days|;
    }
  }

  /** The day `i` steps back from the start of a streak is a training day. */
  lemma StreakDayIn(records: RecordMap, start: Date, current: nat, i: nat)
    requires ValidDate(start) && ValidKeys(records)
    requires IsBackwardRun(records, start, current) && i < current
    ensures DayNumber(start) - i in DaySet(records)
  {
    var k := StepBack(start, i);
    assert k in records && DayNumber(k) == DayNumber(start) - i;
  }

  /** The live streak is one of the blocks the max streak ranges over, so it is never longer. */
  lemma CurrentStreakWithinMax(records: RecordMap, today: Date, current: nat, max: nat)
    requires ValidDate(today) && ValidKeys(records)
    requires IsBackwardRun(records, StreakStart(records, today), current)
    requires IsLongestRun(DaySet(records), max)
    ensures current <= max
  {
    var start := StreakStart(records, today);
    var first := DayNumber(start) - current + 1;
    forall d | first <= d < first + current
      ensures d in DaySet(records)
    {
      StreakDayIn(records, start, current, DayNumber(start) - d);
    }
    assert ConsecutiveRun(DaySet(records), first, current);
  }
}
