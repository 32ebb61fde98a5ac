/** Calendar dates as the records carry them: ISO 8601 complete calendar
    dates in extended format, `YYYY-MM-DD` (ISO 8601:2004, section 4.1.2.2),
    in the proleptic Gregorian calendar. The day number plays the part of
    `new Date(s).getTime()` (a whole number of days since 0000-01-01), and
    the weekday that of `getDay()`, computed on the calendar date itself. */
module Calendar {
  import opened Wrappers
  import opened Strings

  datatype Date = Date(year: int, month: int, day: int)

  predicate IsLeapYear(y: int)
  {
    y % 4 == 0 && (y % 100 != 0 || y % 400 == 0)
  }

  function DaysInMonth(y: int, m: int): (n: int)
    requires 1 <= m <= 12
    ensures 28 <= n <= 31
  {
    if m == 2 then (if IsLeapYear(y) then 29 else 28)
    else if m == 4 || m == 6 || m == 9 || m == 11 then 30
    else 31
  }

  function DaysInYear(y: int): int
  {
    if IsLeapYear(y) then 366 else 365
  }

  /** A date the four-digit year form can write, and that exists. */
  predicate ValidDate(d: Date)
  {
    0 <= d.year <= 9999 && 1 <= d.month <= 12 && 1 <= d.day <= DaysInMonth(d.year, d.month)
  }

  /** Days from 0000-01-01 to the first day of year y: 365 a year plus one
      for each leap year before y. */
  function DaysBeforeYear(y: nat): int
  {
    365 * y + (y + 3) / 4 - (y + 99) / 100 + (y + 399) / 400
  }

  /** Days from the first of January of year y to the first day of month m
      (m == 13 stands for the next first of January). */
  function DaysBeforeMonth(y: int, m: int): int
    requires 1 <= m <= 13
  {
    var common :=
      if m == 1 then 0 else if m == 2 then 31 else if m == 3 then 59 else if m == 4 then 90
      else if m == 5 then 120 else if m == 6 then 151 else if m == 7 then 181 else if m == 8 then 212
      else if m == 9 then 243 else if m == 10 then 273 else if m == 11 then 304 else if m == 12 then 334
      else 365;
    common + (if m > 2 && IsLeapYear(y) then 1 else 0)
  }

  /** Days since 0000-01-01. */
  function DayNumber(d: Date): int
    requires ValidDate(d)
  {
    DaysBeforeYear(d.year) + DaysBeforeMonth(d.year, d.month) + d.day - 1
  }

  /** `getDay()`: 0 is Sunday, 6 is Saturday. 0000-01-01 was a Saturday. */
  function Weekday(d: Date): (w: int)
    requires ValidDate(d)
    ensures 0 <= w < 7
  {
    (DayNumber(d) + 6) % 7
  }

  /** Chronological order on dates: year, then month, then day. */
  predicate Before(a: Date, b: Date)
  {
    a.year < b.year || (a.year == b.year && (a.month < b.month || (a.month == b.month && a.day < b.day)))
  }

  lemma DaysBeforeYearStep(y: nat)
    ensures DaysBeforeYear(y + 1) == DaysBeforeYear(y) + DaysInYear(y)
  {
    QuotientStep(y, 4);
    QuotientStep(y, 100);
    QuotientStep(y, 400);
    DivisorChain(y);
  }

  /** Multiples of 400 are multiples of 100, which are multiples of 4. */
  lemma DivisorChain(y: nat)
    ensures y % 400 == 0 ==> y % 100 == 0
    ensures y % 100 == 0 ==> y % 4 == 0
  {
    if y % 400 == 0 {
      var q := y / 400;
      assert y == 100 * (4 * q);
    }
    if y % 100 == 0 {
      var q := y / 100;
      assert y == 4 * (25 * q);
    }
  }

  /** Rounding (y + k - 1) / k up by one more year adds one exactly when k
      divides y. */
  lemma QuotientStep(y: nat, k: int)
    requires k == 4 || k == 100 || k == 400
    ensures (y + k) / k == (y + k - 1) / k + (if y % k == 0 then 1 else 0)
  {
    if k == 4 {
    } else if k == 100 {
    } else {
    }
  }

  /** Later years start later: by at least 365 days a year. */
  lemma {:induction false} DaysBeforeYearMonotone(y: nat, z: nat)
    requires y < z
    ensures DaysBeforeYear(y) + DaysInYear(y) <= DaysBeforeYear(z)
    decreases z - y
  {
    DaysBeforeYearStep(y);
    if y + 1 < z {
      DaysBeforeYearMonotone(y + 1, z);
    }
  }

  /** The cumulative table agrees with the month lengths: each month
      starts where the previous one ends, and month 13 is the next year. */
  lemma MonthTableConsistent(y: int, m: int)
    requires 1 <= m <= 12
    ensures DaysBeforeMonth(y, m + 1) == DaysBeforeMonth(y, m) + DaysInMonth(y, m)
    ensures DaysBeforeMonth(y, 13) == DaysInYear(y)
  {
  }

  /** A valid date falls inside its year, and later months start later. */
  lemma DayOfYearBounds(d: Date)
    requires ValidDate(d)
    ensures 0 <= DaysBeforeMonth(d.year, d.month) + d.day - 1 < DaysInYear(d.year)
    ensures d.month < 12 ==> DaysBeforeMonth(d.year, d.month) + d.day - 1 < DaysBeforeMonth(d.year, d.month + 1)
  {
    MonthTableConsistent(d.year, d.month);
  }

  /** The day number is strictly increasing in chronological order, and so
      orders valid dates exactly as the calendar does. */
  lemma DayNumberOrder(a: Date, b: Date)
    requires ValidDate(a) && ValidDate(b)
    ensures Before(a, b) <==> DayNumber(a) < DayNumber(b)
    ensures a == b <==> DayNumber(a) == DayNumber(b)
  {
    if Before(a, b) {
      DayNumberIncreasing(a, b);
    } else if Before(b, a) {
      DayNumberIncreasing(b, a);
    }
  }

  lemma DayNumberIncreasing(a: Date, b: Date)
    requires ValidDate(a) && ValidDate(b) && Before(a, b)
    ensures DayNumber(a) < DayNumber(b)
  {
    DayOfYearBounds(a);
    DayOfYearBounds(b);
    if a.year < b.year {
      DaysBeforeYearMonotone(a.year, b.year);
    } else if a.month < b.month {
      assert DaysBeforeMonth(a.year, a.month + 1) <= DaysBeforeMonth(b.year, b.month);
    }
  }

  /** The next day has the next weekday. */
  lemma WeekdayOfNextDay(a: Date, b: Date)
    requires ValidDate(a) && ValidDate(b) && DayNumber(b) == DayNumber(a) + 1
    ensures Weekday(b) == (Weekday(a) + 1) % 7
  {
    NextRemainder(DayNumber(a) + 6);
  }

  lemma NextRemainder(n: int)
    ensures (n + 1) % 7 == (n % 7 + 1) % 7
  {
    var q, r := n / 7, n % 7;
    assert n + 1 == 7 * q + (r + 1);
    if r + 1 == 7 {
      assert n + 1 == 7 * (q + 1);
    }
  }

  predicate IsDigit(c: char)
  {
    '0' <= c <= '9'
  }

  /** The value of a digit; every other character counts as 0. */
  function DigitValue(c: char): (v: int)
    ensures 0 <= v <= 9
  {
    if IsDigit(c) then c as int - '0' as int else 0
  }

  /** Ten-character shape `DDDD-DD-DD`. */
  predicate IsoShaped(s: string)
  {
    |s| == 10 && s[4] == '-' && s[7] == '-'
    && forall i :: 0 <= i < 10 && i != 4 && i != 7 ==> IsDigit(s[i])
  }

  /** Reads `YYYY-MM-DD`; anything else, or a date that does not exist,
      gives None (the `Invalid Date` whose getDay() and getTime() are NaN). */
  function ParseIsoDate(s: string): (r: Option<Date>)
    ensures r.Some? ==> ValidDate(r.value) && IsoShaped(s)
  {
    if !IsoShaped(s) then None
    else
      var d := Date(1000 * DigitValue(s[0]) + 100 * DigitValue(s[1]) + 10 * DigitValue(s[2]) + DigitValue(s[3]),
                    10 * DigitValue(s[5]) + DigitValue(s[6]),
                    10 * DigitValue(s[8]) + DigitValue(s[9]));
      if ValidDate(d) then Some(d) else None
  }

  /** The weekday of a date string, when it is a valid ISO date. */
  function WeekdayOf(s: string): (r: Option<int>)
    ensures r.Some? ==> 0 <= r.value < 7
  {
    match ParseIsoDate(s)
    case Some(d) => Some(Weekday(d))
    case None => None
  }

  /** The character of a decimal digit. */
  function DigitChar(n: int): (c: char)
    requires 0 <= n <= 9
    ensures IsDigit(c) && DigitValue(c) == n
  {
    ('0' as int + n) as char
  }

  /** `toISOString().split('T')[0]`: the date written `YYYY-MM-DD`. */
  function IsoString(d: Date): (s: string)
    requires ValidDate(d)
    ensures |s| == 10 && s[4] == '-' && s[7] == '-'
  {
    var y := d.year;
    var a := y / 1000;
    var b := (y - 1000 * a) / 100;
    var c := (y - 1000 * a - 100 * b) / 10;
    var e := y - 1000 * a - 100 * b - 10 * c;
    [DigitChar(a), DigitChar(b), DigitChar(c), DigitChar(e), '-',
     DigitChar(d.month / 10), DigitChar(d.month % 10), '-',
     DigitChar(d.day / 10), DigitChar(d.day % 10)]
  }

  /** The written date reads back as the same date. */
  lemma IsoStringRoundTrip(d: Date)
    requires ValidDate(d)
    ensures ParseIsoDate(IsoString(d)) == Some(d)
  {
  }

  /** The day before a date, rolling back over month and year ends. */
  function PrevDate(d: Date): (p: Date)
    requires ValidDate(d) && d != Date(0, 1, 1)
    ensures ValidDate(p) && DayNumber(p) == DayNumber(d) - 1
  {
    if d.day > 1 then Date(d.year, d.month, d.day - 1)
    else if d.month > 1 then
      MonthTableConsistent(d.year, d.month - 1);
      Date(d.year, d.month - 1, DaysInMonth(d.year, d.month - 1))
    else
      DaysBeforeYearStep(d.year - 1);
      MonthTableConsistent(d.year - 1, 12);
      Date(d.year - 1, 12, 31)
  }

  /** `date.setDate(now.getDate() - n)`: the date n days before d. */
  function DaysAgo(d: Date, n: nat): (p: Date)
    requires ValidDate(d) && DayNumber(d) >= n
    ensures ValidDate(p) && DayNumber(p) == DayNumber(d) - n
  {
    if n == 0 then d
    else
      var q := DaysAgo(d, n - 1);
      NotFirstDay(q);
      PrevDate(q)
  }

  /** Only 0000-01-01 has day number 0. */
  lemma NotFirstDay(q: Date)
    requires ValidDate(q) && DayNumber(q) >= 1
    ensures q != Date(0, 1, 1)
  {
  }

  function Pow10(n: nat): (p: int)
    ensures p >= 1
  {
    if n == 0 then 1 else 10 * Pow10(n - 1)
  }

  /** The decimal number spelled by t, reading each non-digit as 0. */
  function DigitsNumber(t: string): int
  {
    if t == [] then 0 else DigitValue(t[0]) * Pow10(|t| - 1) + DigitsNumber(t[1..])
  }

  lemma {:induction false} DigitsNumberBounds(t: string)
    ensures 0 <= DigitsNumber(t) < Pow10(|t|)
  {
    if t != [] {
      DigitsNumberBounds(t[1..]);
      var p := Pow10(|t| - 1);
      DigitsNumberUnfold(t, 0, p);
      assert t[0..] == t;
      DigitTimes(DigitValue(t[0]), p);
    }
  }

  lemma DigitTimes(x: int, p: int)
    requires 0 <= x <= 9 && p >= 1
    ensures 0 <= x * p <= 9 * p
  {
  }

  /** Two strings of one length with the same non-digit characters at the
      same places, digits elsewhere. */
  predicate Aligned(a: string, b: string)
  {
    |a| == |b| && forall i :: 0 <= i < |a| ==> (IsDigit(a[i]) && IsDigit(b[i])) || a[i] == b[i]
  }

  /** A larger leading digit outweighs any tail. */
  lemma LeadingDigit(x: int, y: int, p: int, u: int, v: int)
    requires 0 <= x < y && 0 <= u < p && 0 <= v < p
    ensures x * p + u < y * p + v
  {
    assert (x + 1) * p <= y * p;
  }

  lemma AlignedTail(a: string, b: string)
    requires Aligned(a, b) && a != []
    ensures Aligned(a[1..], b[1..])
  {
    forall i | 0 <= i < |a| - 1
      ensures (IsDigit(a[1..][i]) && IsDigit(b[1..][i])) || a[1..][i] == b[1..][i]
    {
      assert a[1..][i] == a[i + 1] && b[1..][i] == b[i + 1];
    }
  }

  /** On aligned strings, lexicographic order is numeric order. */
  lemma {:induction false} AlignedLexOrder(a: string, b: string)
    requires Aligned(a, b)
    ensures LexLess(a, b) <==> DigitsNumber(a) < DigitsNumber(b)
  {
    if a != [] {
      AlignedTail(a, b);
      var p := Pow10(|a| - 1);
      var x, y := DigitValue(a[0]), DigitValue(b[0]);
      var u, v := DigitsNumber(a[1..]), DigitsNumber(b[1..]);
      assert DigitsNumber(a) == x * p + u;
      assert DigitsNumber(b) == y * p + v;
      DigitsNumberBounds(a[1..]);
      DigitsNumberBounds(b[1..]);
      if a[0] == b[0] {
        AlignedLexOrder(a[1..], b[1..]);
      } else {
        assert IsDigit(a[0]) && IsDigit(b[0]);
        if a[0] < b[0] {
          LeadingDigit(x, y, p, u, v);
        } else {
          LeadingDigit(y, x, p, v, u);
        }
      }
    }
  }

  /** One more digit of the suffix of t from k. */
  lemma DigitsNumberUnfold(t: string, k: int, p: int)
    requires 0 <= k < |t| && p == Pow10(|t| - k - 1)
    ensures DigitsNumber(t[k..]) == DigitValue(t[k]) * p + DigitsNumber(t[k + 1..])
  {
    assert t[k..][0] == t[k] && t[k..][1..] == t[k + 1..];
  }

  /** The number a ten-character string spells, digit by digit. */
  lemma TenDigitsNumber(s: string)
    requires |s| == 10
    ensures DigitsNumber(s) == 1000000000 * DigitValue(s[0]) + 100000000 * DigitValue(s[1])
      + 10000000 * DigitValue(s[2]) + 1000000 * DigitValue(s[3]) + 100000 * DigitValue(s[4])
      + 10000 * DigitValue(s[5]) + 1000 * DigitValue(s[6]) + 100 * DigitValue(s[7])
      + 10 * DigitValue(s[8]) + DigitValue(s[9])
  {
    assert Pow10(9) == 1000000000 && Pow10(8) == 100000000 && Pow10(7) == 10000000;
    assert Pow10(6) == 1000000 && Pow10(5) == 100000 && Pow10(4) == 10000 && Pow10(3) == 1000;
    assert Pow10(2) == 100 && Pow10(1) == 10 && Pow10(0) == 1;
    assert s[0..] == s && s[10..] == [];
    DigitsNumberUnfold(s, 0, 1000000000);
    DigitsNumberUnfold(s, 1, 100000000);
    DigitsNumberUnfold(s, 2, 10000000);
    DigitsNumberUnfold(s, 3, 1000000);
    DigitsNumberUnfold(s, 4, 100000);
    DigitsNumberUnfold(s, 5, 10000);
    DigitsNumberUnfold(s, 6, 1000);
    DigitsNumberUnfold(s, 7, 100);
    DigitsNumberUnfold(s, 8, 10);
    DigitsNumberUnfold(s, 9, 1);
  }

  /** The digits of an ISO date spell year, month and day. */
  lemma IsoDigitsNumber(s: string)
    requires ParseIsoDate(s).Some?
    ensures var d := ParseIsoDate(s).value;
      DigitsNumber(s) == d.year * 1000000 + d.month * 1000 + d.day
  {
    TenDigitsNumber(s);
    assert DigitValue(s[4]) == 0 && DigitValue(s[7]) == 0;
  }

  /** For valid ISO date strings, the string order `<` is chronological
      order: comparing the strings sorts records exactly as comparing their
      `getTime()` values does. */
  lemma IsoOrderIsChronological(a: string, b: string)
    requires ParseIsoDate(a).Some? && ParseIsoDate(b).Some?
    ensures LexLess(a, b) <==> DayNumber(ParseIsoDate(a).value) < DayNumber(ParseIsoDate(b).value)
    ensures a == b <==> ParseIsoDate(a).value == ParseIsoDate(b).value
  {
    var da, db := ParseIsoDate(a).value, ParseIsoDate(b).value;
    IsoShapedAligned(a, b);
    AlignedLexOrder(a, b);
    IsoDigitsNumber(a);
    IsoDigitsNumber(b);
    DateKeyOrder(da, db);
    DayNumberOrder(da, db);
    if da == db {
      IsoSameDate(a, b);
    }
  }

  lemma IsoShapedAligned(a: string, b: string)
    requires IsoShaped(a) && IsoShaped(b)
    ensures Aligned(a, b)
  {
  }

  /** Year, month and day packed into one number keep chronological order. */
  lemma DateKeyOrder(a: Date, b: Date)
    requires ValidDate(a) && ValidDate(b)
    ensures Before(a, b) <==> a.year * 1000000 + a.month * 1000 + a.day < b.year * 1000000 + b.month * 1000 + b.day
  {
  }

  /** Equal dates come from equal strings. */
  lemma IsoSameDate(a: string, b: string)
    requires ParseIsoDate(a).Some? && ParseIsoDate(b).Some? && ParseIsoDate(a).value == ParseIsoDate(b).value
    ensures a == b
  {
    IsoShapedAligned(a, b);
    AlignedNumberInjective(a, b);
    IsoDigitsNumber(a);
    IsoDigitsNumber(b);
  }

  /** Aligned strings spelling the same number are the same string. */
  lemma {:induction false} AlignedNumberInjective(a: string, b: string)
    requires Aligned(a, b)
    ensures DigitsNumber(a) == DigitsNumber(b) ==> a == b
  {
    if a != [] && DigitsNumber(a) == DigitsNumber(b) {
      AlignedLexOrder(a, b);
      AlignedLexOrder(b, a);
      LexLessTotal(a, b);
    }
  }
}
