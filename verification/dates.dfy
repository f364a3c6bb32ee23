/** Calendar dates in the ISO 8601 extended calendar-date form `YYYY-MM-DD`
    (section 5.2.1.1 of ISO 8601:2004), the only date shape the pipeline writes.
    The newest-first sorts compare dates chronologically; `Key` is the
    (year, month, day) order, shown here to agree with the string order of the
    rendered dates and with the day count. */
module Dates {
  import opened Wrappers
  import opened Strings

  datatype Date = Date(year: int, month: int, day: int)

  /** Gregorian leap-year rule. */
  predicate IsLeapYear(y: int) {
    y % 4 == 0 && (y % 100 != 0 || y % 400 == 0)
  }

  function DaysInMonth(y: int, m: int): int
    requires 1 <= m <= 12
  {
    if m == 2 then (if IsLeapYear(y) then 29 else 28)
    else if m == 4 || m == 6 || m == 9 || m == 11 then 30
    else 31
  }

  function DaysInYear(y: int): int {
    if IsLeapYear(y) then 366 else 365
  }

  /** A real calendar date whose year renders in four digits. */
  predicate Valid(d: Date) {
    0 <= d.year <= 9999 && 1 <= d.month <= 12 && 1 <= d.day <= DaysInMonth(d.year, d.month)
  }

  type CalendarDate = d: Date | Valid(d) witness Date(2000, 1, 1)

  function Pow10(w: nat): (r: nat)
    ensures r >= 1
  {
    if w == 0 then 1 else 10 * Pow10(w - 1)
  }

  /** `n` rendered in exactly `w` decimal digits, zero-padded on the left. */
  function Digits(n: nat, w: nat): (r: string)
    requires n < Pow10(w)
    ensures |r| == w && AllDigits(r)
  {
    if w == 0 then "" else Digits(n / 10, w - 1) + [DigitChar(n % 10)]
  }

  lemma {:induction false} DigitsValueOfDigits(n: nat, w: nat)
    requires n < Pow10(w)
    ensures DigitsValue(Digits(n, w)) == n
  {
    if w > 0 {
      DigitsValueOfDigits(n / 10, w - 1);
      var r := Digits(n, w);
      assert r[..|r| - 1] == Digits(n / 10, w - 1);
    }
  }

  lemma {:induction false} DigitsOfDigitsValue(s: string)
    requires AllDigits(s)
    ensures DigitsValue(s) < Pow10(|s|)
    ensures Digits(DigitsValue(s), |s|) == s
  {
    if s != [] {
      var init := s[..|s| - 1];
      DigitsOfDigitsValue(init);
      var v := DigitsValue(init);
      var c := s[|s| - 1] as int - '0' as int;
      assert DigitsValue(s) == 10 * v + c;
      assert (10 * v + c) / 10 == v && (10 * v + c) % 10 == c;
      assert s == init + [s[|s| - 1]];
    }
  }

  /** `format(date, 'yyyy-MM-dd')` and `toISOString().split('T')[0]`. */
  function Format(d: CalendarDate): (r: string)
    ensures |r| == 10 && r[4] == '-' && r[7] == '-'
  {
    Digits(d.year, 4) + "-" + Digits(d.month, 2) + "-" + Digits(d.day, 2)
  }

  /** Reads a `YYYY-MM-DD` string; anything else, or a day that does not exist, is `None`. */
  function ParseIso(s: string): Option<CalendarDate> {
    if |s| == 10 && s[4] == '-' && s[7] == '-'
       && AllDigits(s[..4]) && AllDigits(s[5..7]) && AllDigits(s[8..])
    then
      var d := Date(DigitsValue(s[..4]), DigitsValue(s[5..7]), DigitsValue(s[8..]));
      if Valid(d) then Some(d) else None
    else None
  }

  /** Every rendered date reads back as itself. */
  lemma ParseFormat(d: CalendarDate)
    ensures ParseIso(Format(d)) == Some(d)
  {
    var s := Format(d);
    assert s[..4] == Digits(d.year, 4);
    assert s[5..7] == Digits(d.month, 2);
    assert s[8..] == Digits(d.day, 2);
    DigitsValueOfDigits(d.year, 4);
    DigitsValueOfDigits(d.month, 2);
    DigitsValueOfDigits(d.day, 2);
  }

  /** Every string that reads as a date is that date's rendering: the format has one spelling per date. */
  lemma FormatParse(s: string, d: CalendarDate)
    requires ParseIso(s) == Some(d)
    ensures Format(d) == s
  {
    DigitsOfDigitsValue(s[..4]);
    DigitsOfDigitsValue(s[5..7]);
    DigitsOfDigitsValue(s[8..]);
    assert s == s[..4] + "-" + s[5..7] + "-" + s[8..];
  }

  /** The (year, month, day) order as one integer. */
  function Key(d: CalendarDate): (k: int)
    ensures k >= 0
  {
    d.year * 10000 + d.month * 100 + d.day
  }

  /** JavaScript `<` on strings: lexicographic order on code units. */
  predicate LexLess(a: string, b: string) {
    if a == [] then b != []
    else b != [] && (a[0] < b[0] || (a[0] == b[0] && LexLess(a[1..], b[1..])))
  }

  lemma {:induction false} LexLessAppend(a1: string, a2: string, b1: string, b2: string)
    requires |a1| == |b1|
    ensures LexLess(a1 + a2, b1 + b2) <==> LexLess(a1, b1) || (a1 == b1 && LexLess(a2, b2))
  {
    if a1 != [] {
      assert (a1 + a2)[0] == a1[0] && (b1 + b2)[0] == b1[0];
      assert (a1 + a2)[1..] == a1[1..] + a2 && (b1 + b2)[1..] == b1[1..] + b2;
      LexLessAppend(a1[1..], a2, b1[1..], b2);
      if a1[0] == b1[0] {
        assert a1 == b1 <==> a1[1..] == b1[1..] by {
          if a1[1..] == b1[1..] {
            assert a1 == [a1[0]] + a1[1..] && b1 == [b1[0]] + b1[1..];
          }
        }
      }
    } else {
      assert a1 + a2 == a2 && b1 + b2 == b2;
    }
  }

  lemma LexLessSame(c: char, a: string, b: string)
    ensures LexLess([c] + a, [c] + b) <==> LexLess(a, b)
  {
    LexLessAppend([c], a, [c], b);
  }

  /** Equal-width zero-padded renderings compare as strings exactly as the numbers do. */
  lemma {:induction false} LexLessDigits(x: nat, y: nat, w: nat)
    requires x < Pow10(w) && y < Pow10(w)
    ensures LexLess(Digits(x, w), Digits(y, w)) <==> x < y
  {
    if w > 0 {
      LexLessDigits(x / 10, y / 10, w - 1);
      var a := Digits(x / 10, w - 1);
      var b := Digits(y / 10, w - 1);
      LexLessAppend(a, [DigitChar(x % 10)], b, [DigitChar(y % 10)]);
      assert a == b <==> x / 10 == y / 10 by {
        if a == b {
          DigitsValueOfDigits(x / 10, w - 1);
          DigitsValueOfDigits(y / 10, w - 1);
        }
      }
      assert LexLess([DigitChar(x % 10)], [DigitChar(y % 10)]) <==> x % 10 < y % 10;
    }
  }

  /** Comparing two rendered dates as strings agrees with comparing them by (year, month, day),
      so sorting on the `date` string and sorting on the date are the same order. */
  lemma IsoOrderAgrees(d1: CalendarDate, d2: CalendarDate)
    ensures LexLess(Format(d1), Format(d2)) <==> Key(d1) < Key(d2)
  {
    FormatLex(d1, d2);
  }

  /** The (year, month, day) order as one comparison. */
  predicate FieldsLess(d1: CalendarDate, d2: CalendarDate) {
    || d1.year < d2.year
    || (d1.year == d2.year && (d1.month < d2.month || (d1.month == d2.month && d1.day < d2.day)))
  }

  lemma FormatLex(d1: CalendarDate, d2: CalendarDate)
    ensures LexLess(Format(d1), Format(d2)) <==> FieldsLess(d1, d2)
  {
    var y1, m1, a1 := Digits(d1.year, 4), Digits(d1.month, 2), Digits(d1.day, 2);
    var y2, m2, a2 := Digits(d2.year, 4), Digits(d2.month, 2), Digits(d2.day, 2);
    assert Format(d1) == y1 + ("-" + (m1 + ("-" + a1)));
    assert Format(d2) == y2 + ("-" + (m2 + ("-" + a2)));
    LexLessAppend(y1, "-" + (m1 + ("-" + a1)), y2, "-" + (m2 + ("-" + a2)));
    LexLessSame('-', m1 + ("-" + a1), m2 + ("-" + a2));
    LexLessAppend(m1, "-" + a1, m2, "-" + a2);
    LexLessSame('-', a1, a2);
    LexLessDigits(d1.year, d2.year, 4);
    LexLessDigits(d1.month, d2.month, 2);
    LexLessDigits(d1.day, d2.day, 2);
    DigitsValueOfDigits(d1.year, 4);
    DigitsValueOfDigits(d2.year, 4);
    DigitsValueOfDigits(d1.month, 2);
    DigitsValueOfDigits(d2.month, 2);
    assert y1 == y2 <==> d1.year == d2.year;
    assert m1 == m2 <==> d1.month == d2.month;
  }

  /** Days in the year before the first of month `m`. */
  function DaysBeforeMonth(y: int, m: int): int
    requires 1 <= m <= 12
  {
    [0, 31, 59, 90, 120, 151, 181, 212, 243, 273, 304, 334][m - 1]
    + (if m > 2 && IsLeapYear(y) then 1 else 0)
  }

  function DaysBeforeYear(y: nat): nat {
    if y == 0 then 0 else DaysBeforeYear(y - 1) + DaysInYear(y - 1)
  }

  /** Days elapsed since 0000-01-01: what `getTime()` measures, in days. */
  function DayNumber(d: CalendarDate): int {
    DaysBeforeYear(d.year) + DaysBeforeMonth(d.year, d.month) + d.day - 1
  }

  lemma MonthStep(y: int, m: int)
    requires 1 <= m <= 12
    ensures m < 12 ==> DaysBeforeMonth(y, m + 1) == DaysBeforeMonth(y, m) + DaysInMonth(y, m)
    ensures m == 12 ==> DaysBeforeMonth(y, m) + DaysInMonth(y, m) == DaysInYear(y)
  {
  }

  /** The calendar day before `d`. */
  function PrevDay(d: CalendarDate): (r: CalendarDate)
    requires DayNumber(d) > 0
    ensures DayNumber(r) == DayNumber(d) - 1
  {
    if d.day > 1 then Date(d.year, d.month, d.day - 1)
    else if d.month > 1 then
      MonthStep(d.year, d.month - 1);
      Date(d.year, d.month - 1, DaysInMonth(d.year, d.month - 1))
    else
      MonthStep(d.year - 1, 12);
      Date(d.year - 1, 12, 31)
  }

  /** `date.setDate(date.getDate() - n)`: the date `n` days before `d`. */
  function SubtractDays(d: CalendarDate, n: nat): (r: CalendarDate)
    requires DayNumber(d) >= n
    ensures DayNumber(r) == DayNumber(d) - n
    decreases n
  {
    if n == 0 then d else PrevDay(SubtractDays(d, n - 1))
  }

  lemma {:induction false} DaysBeforeYearMonotone(a: nat, b: nat)
    requires a <= b
    ensures DaysBeforeYear(a) + (if a < b then DaysInYear(a) else 0) <= DaysBeforeYear(b)
    decreases b - a
  {
    if a < b {
      if a + 1 < b {
        DaysBeforeYearMonotone(a + 1, b);
      }
    }
  }

  lemma {:induction false} DaysBeforeMonthMonotone(y: int, a: int, b: int)
    requires 1 <= a < b <= 12
    ensures DaysBeforeMonth(y, a) + DaysInMonth(y, a) <= DaysBeforeMonth(y, b)
    decreases b - a
  {
    MonthStep(y, a);
    if a + 1 < b {
      DaysBeforeMonthMonotone(y, a + 1, b);
    }
  }

  lemma DayWithinYear(d: CalendarDate)
    ensures DaysBeforeMonth(d.year, d.month) + d.day <= DaysInYear(d.year)
  {
    MonthStep(d.year, d.month);
    if d.month < 12 {
      DaysBeforeMonthMonotone(d.year, d.month, 12);
      MonthStep(d.year, 12);
    }
  }

  /** The (year, month, day) order is the chronological order. */
  lemma KeyIsChronological(d1: CalendarDate, d2: CalendarDate)
    ensures Key(d1) < Key(d2) <==> DayNumber(d1) < DayNumber(d2)
  {
    if d1.year < d2.year {
      DayWithinYear(d1);
      DaysBeforeYearMonotone(d1.year, d2.year);
    } else if d2.year < d1.year {
      DayWithinYear(d2);
      DaysBeforeYearMonotone(d2.year, d1.year);
    } else if d1.month < d2.month {
      DaysBeforeMonthMonotone(d1.year, d1.month, d2.month);
    } else if d2.month < d1.month {
      DaysBeforeMonthMonotone(d1.year, d2.month, d1.month);
    }
  }
}
