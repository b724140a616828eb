/** `now()` and the date stamp of `create_new_session` (main.py:9-10, 14): a clock
    reading formatted with `strftime`. The reading itself is a parameter. */
module Clock {
  import opened Strings

  /** A reading of `datetime.datetime.now()`, to the minute. */
  datatype DateTime = DateTime(year: nat, month: nat, day: nat, hour: nat, minute: nat)

  /** `%Y` prints four digits only from year 1000 on, so the model starts there. */
  predicate ValidDateTime(t: DateTime) {
    1000 <= t.year <= 9999 && 1 <= t.month <= 12 && 1 <= t.day <= 31 && t.hour < 24 && t.minute < 60
  }

  /** A zero-padded two-digit field (`%m`, `%d`, `%H`, `%M`). */
  function Pad2(n: nat): (s: string)
    requires n < 100
    ensures |s| == 2 && IsDigit(s[0]) && IsDigit(s[1])
    ensures DigitValue(s[0]) * 10 + DigitValue(s[1]) == n
  {
    [Digit(n / 10), Digit(n % 10)]
  }

  /** A four-digit year (`%Y`). */
  function Pad4(n: nat): (s: string)
    requires n < 10000
    ensures |s| == 4 && forall i :: 0 <= i < 4 ==> IsDigit(s[i])
    ensures DigitValue(s[0]) * 1000 + DigitValue(s[1]) * 100 + DigitValue(s[2]) * 10 + DigitValue(s[3]) == n
  {
    Pad2(n / 100) + Pad2(n % 100)
  }

  /** `strftime("%Y-%m-%d")` */
  function FormatDate(t: DateTime): (s: string)
    requires ValidDateTime(t)
    ensures |s| == 10 && s[4] == '-' && s[7] == '-'
  {
    Pad4(t.year) + "-" + Pad2(t.month) + "-" + Pad2(t.day)
  }

  /** The date stamp is `YYYY-MM-DD`: its eight other characters are the digits of the
      reading's year, month and day. */
  lemma FormatDateFields(t: DateTime)
    requires ValidDateTime(t)
    ensures var s := FormatDate(t);
      (forall i :: 0 <= i < 10 && i != 4 && i != 7 ==> IsDigit(s[i]))
      && DigitValue(s[0]) * 1000 + DigitValue(s[1]) * 100 + DigitValue(s[2]) * 10 + DigitValue(s[3]) == t.year
      && DigitValue(s[5]) * 10 + DigitValue(s[6]) == t.month
      && DigitValue(s[8]) * 10 + DigitValue(s[9]) == t.day
  {
  }

  /** `now()`: `strftime("%Y-%m-%d %H:%M")` */
  function Now(t: DateTime): (s: string)
    requires ValidDateTime(t)
    ensures |s| == 16 && s[10] == ' ' && s[13] == ':'
    ensures s[..10] == FormatDate(t)
  {
    FormatDate(t) + " " + Pad2(t.hour) + ":" + Pad2(t.minute)
  }

  /** Calendar order of the date part of two readings. */
  predicate DateBefore(a: DateTime, b: DateTime) {
    a.year < b.year
    || (a.year == b.year && (a.month < b.month || (a.month == b.month && a.day <= b.day)))
  }

  /** Two-digit fields compare as strings the way their numbers compare. */
  lemma Pad2Order(m: nat, n: nat)
    requires m < 100 && n < 100
    ensures StrLe(Pad2(m), Pad2(n)) <==> m <= n
  {
    var a, b := Pad2(m), Pad2(n);
    assert a[1..][1..] == [] && b[1..][1..] == [];
    assert StrLe(a[1..], b[1..]) <==> (a[1] != b[1] ==> a[1] < b[1]);
    assert StrLe(a, b) <==> (if a[0] != b[0] then a[0] < b[0] else StrLe(a[1..], b[1..]));
  }

  lemma Pad2Injective(m: nat, n: nat)
    requires m < 100 && n < 100 && Pad2(m) == Pad2(n)
    ensures m == n
  {
  }

  lemma Pad4Order(m: nat, n: nat)
    requires m < 10000 && n < 10000
    ensures StrLe(Pad4(m), Pad4(n)) <==> m <= n
  {
    StrLeConcat(Pad2(m / 100), Pad2(m % 100), Pad2(n / 100), Pad2(n % 100));
    Pad2Order(m / 100, n / 100);
    Pad2Order(m % 100, n % 100);
    if Pad2(m / 100) == Pad2(n / 100) { Pad2Injective(m / 100, n / 100); }
  }

  lemma Pad4Injective(m: nat, n: nat)
    requires m < 10000 && n < 10000 && Pad4(m) == Pad4(n)
    ensures m == n
  {
  }

  /** Comparing the `%Y-%m-%d` stamps as strings, which is what the sidebar sort does,
      is comparing the dates on the calendar. */
  lemma {:induction false} FormatDateOrder(a: DateTime, b: DateTime)
    requires ValidDateTime(a) && ValidDateTime(b)
    ensures StrLe(FormatDate(a), FormatDate(b)) <==> DateBefore(a, b)
  {
    var ya, yb := Pad4(a.year), Pad4(b.year);
    var ma, mb := Pad2(a.month), Pad2(b.month);
    var da, db := Pad2(a.day), Pad2(b.day);
    assert FormatDate(a) == ya + ("-" + ma + "-" + da);
    assert FormatDate(b) == yb + ("-" + mb + "-" + db);
    StrLeConcat(ya, "-" + ma + "-" + da, yb, "-" + mb + "-" + db);
    Pad4Order(a.year, b.year);
    if ya == yb {
      Pad4Injective(a.year, b.year);
      assert "-" + ma + "-" + da == "-" + (ma + ("-" + da));
      assert "-" + mb + "-" + db == "-" + (mb + ("-" + db));
      StrLeConcat("-", ma + ("-" + da), "-", mb + ("-" + db));
      StrLeConcat(ma, "-" + da, mb, "-" + db);
      Pad2Order(a.month, b.month);
      if ma == mb {
        Pad2Injective(a.month, b.month);
        StrLeConcat("-", da, "-", db);
        Pad2Order(a.day, b.day);
      }
    }
  }
}
