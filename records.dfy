/**
 * Training records and the collection of them: one record per date, each
 * with a duration in minutes, an intensity (轻松 / 中等 / 高强度) and the
 * calories estimated when it was logged. Lifetime totals are sums over the
 * collection's values and do not depend on the order they are visited in.
 */
module Records {
  import opened Dates

  datatype Intensity = Light | Moderate | High

  /** The label the user interface shows for an intensity. */
  function IntensityLabel(i: Intensity): string {
    match i
    case Light => "轻松"
    case Moderate => "中等"
    case High => "高强度"
  }

  /** Calories per minute: 4 for light, 5 for moderate, 6 for high intensity. */
  function CalorieFactor(i: Intensity): (f: nat)
    ensures 4 <= f <= 6
    ensures i == Light ==> f == 4
    ensures i == Moderate ==> f == 5
    ensures i == High ==> f == 6
  {
    match i
    case Light => 4
    case Moderate => 5
    case High => 6
  }

  /** A record as the store keeps it; `date` is the key it is filed under. */
  datatype TrainingRecord = TrainingRecord(
    duration: nat,
    intensity: Intensity,
    calories: nat,
    date: Date,
    timestamp: int)

  type RecordMap = map<Date, TrainingRecord>

  /** Every key is a real calendar date and every record carries its own key. */
  ghost predicate WellFormed(m: RecordMap) {
    forall k :: k in m ==> ValidDate(k) && m[k].date == k
  }

  /** Every key is a real calendar date. */
  ghost predicate ValidKeys(m: RecordMap) {
    forall k :: k in m ==> ValidDate(k)
  }

  function DurationOf(r: TrainingRecord): int { r.duration }
  function CaloriesOf(r: TrainingRecord): int { r.calories }
  function HighCountOf(r: TrainingRecord): int { if r.intensity == High then 1 else 0 }

  /** The sum of `f` over the records of `m`, in an unspecified order. */
  ghost function Total(m: RecordMap, f: TrainingRecord -> int): int
    decreases |m|
  {
    if m == map[] then 0
    else
      var k :| k in m;
      assert |m - {k}| < |m| by { assert (m - {k}).Keys == m.Keys - {k}; }
      f(m[k]) + Total(m - {k}, f)
  }

  /** Any record can be taken out of the sum first. */
  lemma {:induction false} TotalRemove(m: RecordMap, f: TrainingRecord -> int, k: Date)
    requires k in m
    ensures Total(m, f) == f(m[k]) + Total(m - {k}, f)
    decreases |m|
  {
    var j :| j in m && Total(m, f) == f(m[j]) + Total(m - {j}, f);
    if j != k {
      assert |m - {j}| < |m| by { assert (m - {j}).Keys == m.Keys - {j}; }
      assert |m - {k}| < |m| by { assert (m - {k}).Keys == m.Keys - {k}; }
      TotalRemove(m - {j}, f, k);
      TotalRemove(m - {k}, f, j);
      assert m - {j} - {k} == m - {k} - {j};
    }
  }

  /** Filing `v` under `k` replaces whatever `k` contributed before. */
  lemma TotalUpdate(m: RecordMap, f: TrainingRecord -> int, k: Date, v: TrainingRecord)
    ensures Total(m[k := v], f) == Total(m - {k}, f) + f(v)
  {
    TotalRemove(m[k := v], f, k);
    assert m[k := v] - {k} == m - {k};
  }

  /** Filing a record under a fresh key adds one record and its share of every sum. */
  lemma TotalInsertFresh(m: RecordMap, f: TrainingRecord -> int, k: Date, v: TrainingRecord)
    requires k !in m
    ensures |m[k := v]| == |m| + 1
    ensures Total(m[k := v], f) == Total(m, f) + f(v)
  {
    TotalUpdate(m, f, k, v);
    assert m - {k} == m;
    assert (m[k := v]).Keys == m.Keys + {k};
  }

  lemma {:induction false} TotalNonNegative(m: RecordMap, f: TrainingRecord -> int)
    requires forall r :: f(r) >= 0
    ensures Total(m, f) >= 0
    decreases |m|
  {
    if m != map[] {
      var k :| k in m;
      TotalRemove(m, f, k);
      assert |m - {k}| < |m| by { assert (m - {k}).Keys == m.Keys - {k}; }
      TotalNonNegative(m - {k}, f);
    }
  }

  /** The lifetime minutes, which are never negative. */
  ghost function TotalMinutes(records: RecordMap): (t: nat)
    ensures t == Total(records, DurationOf)
  {
    TotalNonNegative(records, DurationOf);
    Total(records, DurationOf)
  }

  /** Filing a record adds a key exactly when the date had none. */
  lemma UpdateSize(m: RecordMap, k: Date, v: TrainingRecord)
    ensures |m[k := v]| == if k in m then |m| else |m| + 1
  {
    if k in m {
      assert (m[k := v]).Keys == m.Keys;
    } else {
      assert (m[k := v]).Keys == m.Keys + {k};
    }
  }

  /** Removing a date drops a key exactly when the date had one. */
  lemma RemoveSize(m: RecordMap, k: Date)
    ensures |m - {k}| == if k in m then |m| - 1 else |m|
  {
    if k in m {
      assert (m - {k}).Keys + {k} == m.Keys;
    } else {
      assert m - {k} == m;
    }
  }

  /** `Object.values(m).reduce((sum, r) => sum + f(r), 0)`. */
  method SumRecords(m: RecordMap, f: TrainingRecord -> int) returns (s: int)
    ensures s == Total(m, f)
  {
    var rest := m;
    s := 0;
    while rest != map[]
      invariant s + Total(rest, f) == Total(m, f)
      decreases |rest|
    {
      var k :| k in rest;
      TotalRemove(rest, f, k);
      assert |rest - {k}| < |rest| by { assert (rest - {k}).Keys == rest.Keys - {k}; }
      s := s + f(rest[k]);
      rest := rest - {k};
    }
  }

  /**
   * `Math.round(minutes / 60 * 10)`: an amount of minutes as tenths of an
   * hour, rounded to the nearest tenth with halves rounded up.
   */
  function RoundTenths(minutes: nat): (t: nat)
    ensures 6 * t <= minutes + 3 < 6 * t + 6
  {
    (minutes + 3) / 6
  }
}
