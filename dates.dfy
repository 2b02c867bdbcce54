/**
 * Calendar dates as Python's `datetime.date` holds them (proleptic Gregorian,
 * years 1 to 9999), their day ordinal (`date.toordinal()`, day 1 being
 * 0001-01-01) and their text (`str(date)`, ISO `YYYY-MM-DD`). Subtracting two
 * dates yields the difference of their ordinals in days.
 */
module Dates {
  import opened PyValues

  datatype CalendarDate = CalendarDate(year: int, month: int, day: int)

  predicate IsLeap(y: int) {
    y % 4 == 0 && (y % 100 != 0 || y % 400 == 0)
  }

  function DaysInYear(y: int): int {
    if IsLeap(y) then 366 else 365
  }

  function DaysInMonth(y: int, m: int): int
    requires 1 <= m <= 12
  {
    if m == 2 then (if IsLeap(y) then 29 else 28)
    else if m == 4 || m == 6 || m == 9 || m == 11 then 30
    else 31
  }

  predicate ValidDate(d: CalendarDate) {
    1 <= d.year <= 9999 && 1 <= d.month <= 12 && 1 <= d.day <= DaysInMonth(d.year, d.month)
  }

  /** The values a `date` object can hold. */
  type Date = d: CalendarDate | ValidDate(d) witness CalendarDate(1, 1, 1)

  /** Days in the years before `y`. */
  function DaysBeforeYear(y: int): int
    requires y >= 1
  {
    var y1 := y - 1;
    y1 * 365 + y1 / 4 - y1 / 100 + y1 / 400
  }

  /** Days in the months of year `y` before month `m`. */
  function DaysBeforeMonth(y: int, m: int): int
    requires 1 <= m <= 12
  {
    var table := [0, 31, 59, 90, 120, 151, 181, 212, 243, 273, 304, 334];
    table[m - 1] + (if m > 2 && IsLeap(y) then 1 else 0)
  }

  /** `d.toordinal()`. */
  function Ordinal(d: Date): int {
    DaysBeforeYear(d.year) + DaysBeforeMonth(d.year, d.month) + d.day
  }

  /** `a < b` on dates: earlier year, or same year and earlier month, or same month and earlier day. */
  predicate Before(a: Date, b: Date) {
    a.year < b.year ||
    (a.year == b.year && (a.month < b.month || (a.month == b.month && a.day < b.day)))
  }

  /** `str(d)`: the year to four digits, month and day to two, joined by '-'. */
  function IsoFormat(d: Date): (r: string)
    ensures |r| == 10 && r[4] == '-' && r[7] == '-'
  {
    NatTextWidth(d.year, 4);
    NatTextWidth(d.month, 2);
    NatTextWidth(d.day, 2);
    ZeroPad(d.year, 4) + "-" + ZeroPad(d.month, 2) + "-" + ZeroPad(d.day, 2)
  }

  /** `str(date)` stands for the date: its three digit fields read back as the year, the month and the day. */
  lemma IsoFormatFields(d: Date)
    ensures var r := IsoFormat(d);
            && (forall k :: 0 <= k < |r| && k != 4 && k != 7 ==> '0' <= r[k] <= '9')
            && DigitsValue(r[..4]) == d.year && DigitsValue(r[5..7]) == d.month && DigitsValue(r[8..]) == d.day
  {
    NatTextWidth(d.year, 4);
    NatTextWidth(d.month, 2);
    NatTextWidth(d.day, 2);
    DashedFields(ZeroPad(d.year, 4), ZeroPad(d.month, 2), ZeroPad(d.day, 2));
  }

  /** Three digit fields of widths 4, 2 and 2 joined by dashes, and where each field lands. */
  lemma DashedFields(year: string, month: string, day: string)
    requires |year| == 4 && |month| == 2 && |day| == 2
    requires forall k :: 0 <= k < 4 ==> '0' <= year[k] <= '9'
    requires forall k :: 0 <= k < 2 ==> '0' <= month[k] <= '9' && '0' <= day[k] <= '9'
    ensures var r := year + "-" + month + "-" + day;
            && |r| == 10 && r[4] == '-' && r[7] == '-'
            && (forall k :: 0 <= k < |r| && k != 4 && k != 7 ==> '0' <= r[k] <= '9')
            && r[..4] == year && r[5..7] == month && r[8..] == day
  {
    var r := year + "-" + month + "-" + day;
    assert r[..4] == year && r[5..7] == month && r[8..] == day;
  }

  function Pow10(k: nat): nat {
    if k == 0 then 1 else 10 * Pow10(k - 1)
  }

  /** A number below `10^k` prints with at most `k` digits. */
  lemma {:induction false} NatTextWidth(n: nat, k: nat)
    requires 1 <= k && n < Pow10(k)
    ensures |NatText(n)| <= k
    decreases k
  {
    if n >= 10 {
      NatTextWidth(n / 10, k - 1);
    }
  }

  /** `'%0*d' % (width, n)`: the digits of `n`, with zeros in front up to `width`. */
  function ZeroPad(n: nat, width: nat): (r: string)
    ensures |r| == if |NatText(n)| < width then width else |NatText(n)|
    ensures forall k :: 0 <= k < |r| ==> '0' <= r[k] <= '9'
    ensures DigitsValue(r) == n
    decreases width
  {
    if |NatText(n)| < width then
      var r := ZeroPad(n, width - 1);
      LeadingZero(r);
      "0" + r
    else
      NatTextRoundTrip(n);
      NatText(n)
  }

  lemma {:induction false} LeadingZero(s: string)
    requires forall k :: 0 <= k < |s| ==> '0' <= s[k] <= '9'
    ensures DigitsValue("0" + s) == DigitsValue(s)
    decreases |s|
  {
    if s != [] {
      var t := "0" + s;
      assert t[..|t| - 1] == "0" + s[..|s| - 1];
      LeadingZero(s[..|s| - 1]);
    }
  }

  /** One year further on, the days before it grow by that year's length. */
  lemma DaysBeforeNextYear(y: int)
    requires y >= 1
    ensures DaysBeforeYear(y + 1) == DaysBeforeYear(y) + DaysInYear(y)
  {
    DivStep4(y - 1);
    DivStep100(y - 1);
    DivStep400(y - 1);
    if y % 400 == 0 {
      MultipleOf400(y);
    } else if y % 100 == 0 {
      MultipleOf100(y);
    }
  }

  lemma MultipleOf100(y: int)
    requires y % 100 == 0
    ensures y % 4 == 0
  {
    var k := y / 100;
    assert y == 4 * (25 * k);
  }

  lemma MultipleOf400(y: int)
    requires y % 400 == 0
    ensures y % 100 == 0 && y % 4 == 0
  {
    var k := y / 400;
    assert y == 100 * (4 * k);
    assert y == 4 * (100 * k);
  }

  lemma DivStep4(x: int)
    ensures (x + 1) / 4 == x / 4 + (if (x + 1) % 4 == 0 then 1 else 0)
  {
  }

  lemma DivStep100(x: int)
    ensures (x + 1) / 100 == x / 100 + (if (x + 1) % 100 == 0 then 1 else 0)
  {
  }

  lemma DivStep400(x: int)
    ensures (x + 1) / 400 == x / 400 + (if (x + 1) % 400 == 0 then 1 else 0)
  {
  }

  /** A later year starts after every day of an earlier year has passed. */
  lemma {:induction false} DaysBeforeLaterYear(a: int, b: int)
    requires 1 <= a < b
    ensures DaysBeforeYear(a) + DaysInYear(a) <= DaysBeforeYear(b)
    decreases b - a
  {
    DaysBeforeNextYear(a);
    if a + 1 < b {
      DaysBeforeLaterYear(a + 1, b);
    }
  }

  /** A later month of the same year starts after every day of an earlier month. */
  lemma DaysBeforeLaterMonth(y: int, m: int, n: int)
    requires 1 <= m < n <= 12
    ensures DaysBeforeMonth(y, m) + DaysInMonth(y, m) <= DaysBeforeMonth(y, n)
  {
  }

  /** The day of the year never passes the year's length. */
  lemma DayOfYearBound(d: Date)
    ensures DaysBeforeMonth(d.year, d.month) + d.day <= DaysInYear(d.year)
  {
  }

  /** Ordinals follow the calendar order. */
  lemma OrdinalIncreasing(a: Date, b: Date)
    requires Before(a, b)
    ensures Ordinal(a) < Ordinal(b)
  {
    if a.year < b.year {
      DayOfYearBound(a);
      DaysBeforeLaterYear(a.year, b.year);
    } else if a.month < b.month {
      DaysBeforeLaterMonth(a.year, a.month, b.month);
    }
  }

  /**
   * `a < b` exactly when `a.toordinal() < b.toordinal()`, and two dates with
   * the same ordinal are the same date: the ordinal numbers the calendar.
   */
  lemma OrdinalOrder(a: Date, b: Date)
    ensures Before(a, b) <==> Ordinal(a) < Ordinal(b)
    ensures a == b <==> Ordinal(a) == Ordinal(b)
  {
    if Before(a, b) {
      OrdinalIncreasing(a, b);
    } else if Before(b, a) {
      OrdinalIncreasing(b, a);
    }
  }

  /** Ordinals run from 1 (0001-01-01) to 3652059 (9999-12-31), as `date.min` and `date.max` have them. */
  lemma OrdinalRange(d: Date)
    ensures 1 <= Ordinal(d) <= 3652059
  {
    DayOfYearBound(d);
    if d.year < 9999 {
      DaysBeforeLaterYear(d.year, 9999);
    }
  }
}
