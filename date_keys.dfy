/**
 * The "YYYY-MM-DD" strings under which the training log files its records:
 * `${year}-${String(month).padStart(2, "0")}-${String(day).padStart(2, "0")}`,
 * as `getTodayDateString`, `getDateKey` and every day loop of the statistics
 * build them. The main fact is that the key of a valid date determines the
 * date, so a store keyed by these strings and one keyed by `Date` agree.
 */
module DateKeys {
  import opened Dates

  function Digit(n: int): (c: char)
    requires 0 <= n < 10
    ensures '0' <= c <= '9'
    ensures c as int - '0' as int == n
  {
    ('0' as int + n) as char
  }

  /** Decimal notation of a natural number, as JavaScript's `String(n)` writes it. */
  function NatToString(n: nat): (s: string)
    ensures |s| >= 1
    ensures forall i :: 0 <= i < |s| ==> '0' <= s[i] <= '9'
    ensures n < 10 <==> |s| == 1
  {
    if n < 10 then [Digit(n)] else NatToString(n / 10) + [Digit(n % 10)]
  }

  /** `${n}` for any integer: a leading minus sign for negative numbers. */
  function IntToString(n: int): string {
    if n < 0 then "-" + NatToString(-n) else NatToString(n)
  }

  /** `String(n).padStart(2, "0")`: one leading zero below ten, never truncated. */
  function Pad2(n: nat): (s: string)
    ensures n < 100 ==> s == [Digit(n / 10), Digit(n % 10)]
  {
    var s := NatToString(n);
    assert 10 <= n < 100 ==> NatToString(n / 10) == [Digit(n / 10)];
    if |s| < 2 then "0" + s else s
  }

  /** The record key of a date. */
  function DateKey(d: Date): string
    requires ValidDate(d)
  {
    IntToString(d.year) + "-" + Pad2(d.month) + "-" + Pad2(d.day)
  }

  lemma {:induction false} NatToStringInjective(a: nat, b: nat)
    requires NatToString(a) == NatToString(b)
    ensures a == b
    decreases a
  {
    if a >= 10 && b >= 10 {
      var sa, sb := NatToString(a), NatToString(b);
      assert sa[|sa| - 1] == Digit(a % 10) && sb[|sb| - 1] == Digit(b % 10);
      assert NatToString(a / 10) == sa[..|sa| - 1] == sb[..|sb| - 1] == NatToString(b / 10);
      NatToStringInjective(a / 10, b / 10);
    }
  }

  /** The sign of a number shows in the first character of its notation. */
  lemma IntToStringSign(n: int)
    ensures |IntToString(n)| >= 1
    ensures IntToString(n)[0] == '-' <==> n < 0
  {
  }

  lemma IntToStringInjective(a: int, b: int)
    requires IntToString(a) == IntToString(b)
    ensures a == b
  {
    IntToStringSign(a);
    IntToStringSign(b);
    var sa, sb := IntToString(a), IntToString(b);
    if a < 0 {
      assert NatToString(-a) == sa[1..] == sb[1..] == NatToString(-b);
      NatToStringInjective(-a, -b);
    } else {
      NatToStringInjective(a, b);
    }
  }

  /** The key of a valid date is the year's digits followed by "-MM-DD". */
  lemma DateKeyLayout(d: Date)
    requires ValidDate(d)
    ensures var k, y := DateKey(d), IntToString(d.year);
      && |k| == |y| + 6
      && k[..|y|] == y
      && k[|y|] == '-' && k[|y| + 3] == '-'
      && k[|y| + 1..|y| + 3] == Pad2(d.month)
      && k[|y| + 4..] == Pad2(d.day)
  {
  }

  /** In a 4-digit year the key is exactly "YYYY-MM-DD": ten characters with zero-padded month and day. */
  lemma DateKeyFourDigitYear(d: Date)
    requires ValidDate(d) && 1000 <= d.year <= 9999
    ensures var k := DateKey(d);
      && |k| == 10 && k[4] == '-' && k[7] == '-'
      && k[5] == Digit(d.month / 10) && k[6] == Digit(d.month % 10)
      && k[8] == Digit(d.day / 10) && k[9] == Digit(d.day % 10)
  {
    var y := NatToString(d.year);
    assert |NatToString(d.year / 10)| == 3 by {
      assert |NatToString(d.year / 100)| == 2 by {
        assert |NatToString(d.year / 1000)| == 1;
      }
    }
    DateKeyLayout(d);
  }

  lemma Pad2Injective(a: nat, b: nat)
    requires a < 100 && b < 100
    requires Pad2(a) == Pad2(b)
    ensures a == b
  {
    assert Digit(a / 10) == Digit(b / 10) && Digit(a % 10) == Digit(b % 10);
  }

  /** Distinct valid dates get distinct keys. */
  lemma DateKeyInjective(a: Date, b: Date)
    requires ValidDate(a) && ValidDate(b)
    requires DateKey(a) == DateKey(b)
    ensures a == b
  {
    DateKeyLayout(a);
    DateKeyLayout(b);
    var k, ya, yb := DateKey(a), IntToString(a.year), IntToString(b.year);
    assert |ya| == |yb|;
    IntToStringInjective(a.year, b.year);
    Pad2Injective(a.month, b.month);
    Pad2Injective(a.day, b.day);
  }
}
