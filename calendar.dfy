/**
 * The part of Go's time package that the reminder engine uses on UTC
 * midnights: proleptic Gregorian dates, their day numbers (so that
 * Time.Before and Time.Sub become integer comparisons and differences),
 * time.Date's normalisation of out-of-range months and days, and
 * time.Parse with the two layouts "02/01" and "02/01/2006".
 */
module Calendar {
  import opened Wrappers
  import opened Decimal
  import opened Text

  /** A calendar date; time.Time at 00:00 UTC carries nothing else the engine reads. */
  datatype Date = Date(year: int, month: int, day: int)

  /** time.Time{}, the zero time: 1 January of year 1. */
  const ZERO_TIME: Date := Date(1, 1, 1)

  predicate IsLeap(y: int) {
    y % 4 == 0 && (y % 100 != 0 || y % 400 == 0)
  }

  function DaysIn(m: int, y: int): (n: int)
    requires 1 <= m <= 12
    ensures 28 <= n <= 31
    ensures n == 29 <==> m == 2 && IsLeap(y)
  {
    if m == 2 then (if IsLeap(y) then 29 else 28)
    else if m == 4 || m == 6 || m == 9 || m == 11 then 30
    else 31
  }

  predicate ValidDate(t: Date) {
    1 <= t.month <= 12 && 1 <= t.day <= DaysIn(t.month, t.year)
  }

  function DaysInYear(y: int): int {
    if IsLeap(y) then 366 else 365
  }

  /** Days from 1 January of year 1 to 1 January of year y (negative for earlier years). */
  function YearStart(y: int): int
    decreases if y >= 1 then y - 1 else 1 - y
  {
    if y == 1 then 0
    else if y > 1 then YearStart(y - 1) + DaysInYear(y - 1)
    else YearStart(y + 1) - DaysInYear(y)
  }

  /** Days of year y that lie before the first of month m. */
  function DaysBeforeMonth(m: int, y: int): (n: int)
    requires 1 <= m <= 12
    ensures 0 <= n <= 31 * (m - 1)
  {
    if m == 1 then 0 else DaysBeforeMonth(m - 1, y) + DaysIn(m - 1, y)
  }

  /** December ends the year. */
  lemma DecemberEndsYear(y: int)
    ensures DaysBeforeMonth(12, y) + DaysIn(12, y) == DaysInYear(y)
  {
    var leap := if IsLeap(y) then 1 else 0;
    assert DaysBeforeMonth(2, y) == 31;
    assert DaysBeforeMonth(3, y) == 59 + leap;
    assert DaysBeforeMonth(4, y) == 90 + leap;
    assert DaysBeforeMonth(5, y) == 120 + leap;
    assert DaysBeforeMonth(6, y) == 151 + leap;
    assert DaysBeforeMonth(7, y) == 181 + leap;
    assert DaysBeforeMonth(8, y) == 212 + leap;
    assert DaysBeforeMonth(9, y) == 243 + leap;
    assert DaysBeforeMonth(10, y) == 273 + leap;
    assert DaysBeforeMonth(11, y) == 304 + leap;
    assert DaysBeforeMonth(12, y) == 334 + leap;
  }

  /** Each month starts where the previous one ends, and December ends the year. */
  lemma MonthStep(m: int, y: int)
    requires 1 <= m <= 12
    ensures m < 12 ==> DaysBeforeMonth(m + 1, y) == DaysBeforeMonth(m, y) + DaysIn(m, y)
    ensures m == 12 ==> DaysBeforeMonth(m, y) + DaysIn(m, y) == DaysInYear(y)
  {
    DecemberEndsYear(y);
  }

  /** The number of days from 1 January of year 1 to t: the instant of t's midnight, in days. */
  function DayNumber(t: Date): int
    requires 1 <= t.month <= 12
  {
    YearStart(t.year) + DaysBeforeMonth(t.month, t.year) + t.day - 1
  }

  /** Time.Before on two UTC midnights. */
  predicate Before(a: Date, b: Date)
    requires 1 <= a.month <= 12 && 1 <= b.month <= 12
  {
    DayNumber(a) < DayNumber(b)
  }

  /** The calendar order of dates: by year, then month, then day. */
  predicate CalendarBefore(a: Date, b: Date) {
    a.year < b.year
    || (a.year == b.year && (a.month < b.month || (a.month == b.month && a.day < b.day)))
  }

  /** The count of days before a year is the usual closed Gregorian formula. */
  lemma {:induction false} YearStartFormula(y: int)
    ensures YearStart(y) == 365 * (y - 1) + (y - 1) / 4 - (y - 1) / 100 + (y - 1) / 400
    decreases if y >= 1 then y - 1 else 1 - y
  {
    if y > 1 {
      YearStartFormula(y - 1);
      LeapCount(y - 1);
    } else if y < 1 {
      YearStartFormula(y + 1);
      LeapCount(y);
    }
  }

  /** Going from year q to q + 1 adds one to the count of leap years exactly when q is leap. */
  lemma LeapCount(q: int)
    ensures (q / 4 - (q - 1) / 4) - (q / 100 - (q - 1) / 100) + (q / 400 - (q - 1) / 400)
      == if IsLeap(q) then 1 else 0
  {
    FloorStep(q);
    DivisorChain(q);
  }

  /** A multiple of 400 is a multiple of 100, and a multiple of 100 is a multiple of 4. */
  lemma DivisorChain(q: int)
    ensures q % 400 == 0 ==> q % 100 == 0
    ensures q % 100 == 0 ==> q % 4 == 0
  {
    var k := q / 400;
    var j := q / 100;
    assert q == 400 * k + q % 400;
    assert q == 100 * j + q % 100;
    if q % 400 == 0 {
      assert q == 100 * (4 * k) + 0;
    }
    if q % 100 == 0 {
      assert q == 4 * (25 * j) + 0;
    }
  }

  lemma FloorStep(q: int)
    ensures q / 4 - (q - 1) / 4 == if q % 4 == 0 then 1 else 0
    ensures q / 100 - (q - 1) / 100 == if q % 100 == 0 then 1 else 0
    ensures q / 400 - (q - 1) / 400 == if q % 400 == 0 then 1 else 0
  {
  }

  /** A year is as long as the distance from its first day to the next year's first day. */
  lemma YearStartStep(y: int)
    ensures YearStart(y + 1) == YearStart(y) + DaysInYear(y)
  {
  }

  lemma {:induction false} YearStartMonotone(a: int, b: int)
    requires a < b
    ensures YearStart(a) + DaysInYear(a) <= YearStart(b)
    decreases b - a
  {
    YearStartStep(a);
    if a + 1 < b {
      YearStartMonotone(a + 1, b);
      YearStartStep(a + 1);
    }
  }

  lemma {:induction false} DaysBeforeMonthMonotone(m1: int, m2: int, y: int)
    requires 1 <= m1 < m2 <= 12
    ensures DaysBeforeMonth(m1, y) + DaysIn(m1, y) <= DaysBeforeMonth(m2, y)
    decreases m2 - m1
  {
    MonthStep(m1, y);
    if m1 + 1 < m2 {
      DaysBeforeMonthMonotone(m1 + 1, m2, y);
    }
  }

  lemma DayOfYearBounds(t: Date)
    requires ValidDate(t)
    ensures 0 <= DaysBeforeMonth(t.month, t.year) + t.day - 1 < DaysInYear(t.year)
  {
    MonthStep(12, t.year);
    if t.month < 12 {
      DaysBeforeMonthMonotone(t.month, 12, t.year);
    }
  }

  /** On valid dates the instant order is the calendar order. */
  lemma BeforeIsCalendarOrder(a: Date, b: Date)
    requires ValidDate(a) && ValidDate(b)
    ensures Before(a, b) <==> CalendarBefore(a, b)
  {
    DayOfYearBounds(a);
    DayOfYearBounds(b);
    if a.year < b.year {
      YearStartMonotone(a.year, b.year);
    } else if b.year < a.year {
      YearStartMonotone(b.year, a.year);
    } else if a.month < b.month {
      DaysBeforeMonthMonotone(a.month, b.month, a.year);
    } else if b.month < a.month {
      DaysBeforeMonthMonotone(b.month, a.month, a.year);
    }
  }

  /** The first day of the month after month m of year y lies DaysIn(m, y) days later. */
  lemma NextMonthStart(y: int, m: int)
    requires 1 <= m <= 12
    ensures m < 12 ==> DayNumber(Date(y, m + 1, 1)) == DayNumber(Date(y, m, 1)) + DaysIn(m, y)
    ensures m == 12 ==> DayNumber(Date(y + 1, 1, 1)) == DayNumber(Date(y, m, 1)) + DaysIn(m, y)
  {
    YearStartStep(y);
    MonthStep(m, y);
  }

  /**
   * Day d counted from the first of month m of year y, carried into earlier or
   * later months while it falls outside month m.
   */
  function NormalizeDay(y: int, m: int, d: int): (t: Date)
    requires 1 <= m <= 12
    ensures ValidDate(t)
    decreases if d < 1 then 1 - d else 0, if d < 1 then 0 else d
  {
    if d < 1 then
      var py := if m == 1 then y - 1 else y;
      var pm := if m == 1 then 12 else m - 1;
      NormalizeDay(py, pm, d + DaysIn(pm, py))
    else if d > DaysIn(m, y) then
      var ny := if m == 12 then y + 1 else y;
      var nm := if m == 12 then 1 else m + 1;
      NormalizeDay(ny, nm, d - DaysIn(m, y))
    else
      Date(y, m, d)
  }

  /** The date NormalizeDay settles on lies d - 1 days after the first of month m. */
  lemma {:induction false} NormalizeDayNumber(y: int, m: int, d: int)
    requires 1 <= m <= 12
    ensures DayNumber(NormalizeDay(y, m, d)) == DayNumber(Date(y, m, 1)) + d - 1
    decreases if d < 1 then 1 - d else 0, if d < 1 then 0 else d
  {
    if d < 1 {
      var py := if m == 1 then y - 1 else y;
      var pm := if m == 1 then 12 else m - 1;
      NextMonthStart(py, pm);
      NormalizeDayNumber(py, pm, d + DaysIn(pm, py));
    } else if d > DaysIn(m, y) {
      var ny := if m == 12 then y + 1 else y;
      var nm := if m == 12 then 1 else m + 1;
      NextMonthStart(y, m);
      NormalizeDayNumber(ny, nm, d - DaysIn(m, y));
    }
  }

  /**
   * time.Date(y, m, d, 0, 0, 0, 0, time.UTC): the month is first brought into
   * 1..12 by moving whole years (floor division), then the day is counted from
   * the first of that month, so 29 February of a common year is 1 March.
   */
  function MakeDate(y: int, m: int, d: int): (t: Date)
    ensures ValidDate(t)
    ensures 1 <= m <= 12 && 1 <= d <= DaysIn(m, y) ==> t == Date(y, m, d)
  {
    if 1 <= m <= 12 then
      assert (m - 1) / 12 == 0 && (m - 1) % 12 + 1 == m;
      if 1 <= d <= DaysIn(m, y) then Date(y, m, d) else NormalizeDay(y, m, d)
    else
      NormalizeDay(y + (m - 1) / 12, (m - 1) % 12 + 1, d)
  }

  /**
   * time.Date for any month: the month is moved into 1..12 by whole years,
   * rounding down, and the day is counted from the first of the resulting month.
   */
  lemma MakeDateDayNumber(y: int, m: int, d: int)
    ensures DayNumber(MakeDate(y, m, d)) == DayNumber(Date(y + (m - 1) / 12, (m - 1) % 12 + 1, 1)) + d - 1
  {
    NormalizeDayNumber(y + (m - 1) / 12, (m - 1) % 12 + 1, d);
  }

  /** time.Date turns 29 February of a common year into 1 March. */
  lemma LeapDayInCommonYear(y: int)
    requires !IsLeap(y)
    ensures MakeDate(y, 2, 29) == Date(y, 3, 1)
  {
    assert NormalizeDay(y, 3, 1) == Date(y, 3, 1);
  }

  /** Time.Format with layout "02/01": zero-padded day, '/', zero-padded month. */
  function FormatDayMonth(t: Date): (s: string)
    requires ValidDate(t)
    ensures |s| == 5
  {
    ZeroPad(t.day, 2) + "/" + ZeroPad(t.month, 2)
  }

  /** Time.Format with layout "02/01/2006" for a year of at most four digits. */
  function FormatDayMonthYear(t: Date): (s: string)
    requires ValidDate(t) && 0 <= t.year <= 9999
    ensures |s| == 10
  {
    FormatDayMonth(t) + "/" + ZeroPad(t.year, 4)
  }

  /** Text that starts with two digits, '/', two digits: the shape of layout "02/01". */
  predicate DayMonthShape(s: string) {
    |s| >= 5 && AllDigits(s[0..2]) && s[2] == '/' && AllDigits(s[3..5])
  }

  /** Printing the values of a DD/MM text with "02/01" gives its first five characters back. */
  lemma DayMonthShapeText(s: string)
    requires DayMonthShape(s)
    ensures ZeroPad(DigitsValue(s[0..2]), 2) + "/" + ZeroPad(DigitsValue(s[3..5]), 2) == s[..5]
  {
    var day, month := s[0..2], s[3..5];
    ZeroPadOfDigitsValue(day);
    ZeroPadOfDigitsValue(month);
    assert s[..5] == [s[0], s[1], s[2], s[3], s[4]];
    assert day == [s[0], s[1]];
    assert month == [s[3], s[4]];
  }

  /** The first five characters of a DD/MM text are ASCII. */
  lemma DayMonthAscii(s: string)
    requires DayMonthShape(s)
    ensures forall i :: 0 <= i < 5 ==> s[i] < 0x80 as char
  {
    var day, month := s[0..2], s[3..5];
    assert IsDigit(day[0]) && day[0] == s[0];
    assert IsDigit(day[1]) && day[1] == s[1];
    assert IsDigit(month[0]) && month[0] == s[3];
    assert IsDigit(month[1]) && month[1] == s[4];
  }

  /** The shape of layout "02/01/2006": DD/MM, '/', four digits, and nothing more. */
  predicate DayMonthYearShape(s: string) {
    |s| == 10 && DayMonthShape(s) && s[5] == '/' && AllDigits(s[6..10])
  }

  /** A DD/MM/YYYY text is ASCII, its year has at most four digits, and "02/01/2006" prints it back. */
  lemma DayMonthYearShapeText(s: string)
    requires DayMonthYearShape(s)
    ensures ZeroPad(DigitsValue(s[0..2]), 2) + "/" + ZeroPad(DigitsValue(s[3..5]), 2) + "/"
      + ZeroPad(DigitsValue(s[6..10]), 4) == s
    ensures DigitsValue(s[6..10]) <= 9999 && s[6..] == s[6..10]
    ensures forall i :: 0 <= i < |s| ==> s[i] < 0x80 as char
  {
    DayMonthShapeText(s);
    DayMonthAscii(s);
    ZeroPadOfDigitsValue(s[6..10]);
    DigitsValueBound(s[6..10]);
    assert Pow10(4) == 10000;
    assert s == s[..5] + "/" + s[6..10];
    assert forall i :: 0 <= i < 4 ==> s[6..10][i] == s[i + 6];
  }

  /**
   * time.Parse("02/01", s): exactly two digits of day, '/', two digits of month,
   * and no more text; the month must be 1..12 and the day must exist in that
   * month of year 0, the year a layout without a year field leaves (a leap year,
   * so 29/02 is accepted).
   */
  function ParseDayMonth(s: string): (r: Option<Date>)
    ensures r.Some? ==> ValidDate(r.value) && r.value.year == 0 && FormatDayMonth(r.value) == s
    ensures r.Some? ==> ByteLen(s) == 5
  {
    if |s| == 5 && DayMonthShape(s) then
      var day := DigitsValue(s[0..2]);
      var month := DigitsValue(s[3..5]);
      if 1 <= month <= 12 && 1 <= day <= DaysIn(month, 0) then
        DayMonthShapeText(s);
        DayMonthAscii(s);
        assert s[..5] == s;
        Some(Date(0, month, day))
      else None
    else None
  }

  /**
   * time.Parse("02/01/2006", s): as "02/01", then '/', then exactly four digits
   * of year; the day must exist in that month of that year.
   */
  function ParseDayMonthYear(s: string): (r: Option<Date>)
    ensures r.Some? ==> ValidDate(r.value) && 0 <= r.value.year <= 9999 && FormatDayMonthYear(r.value) == s
    ensures r.Some? ==> ByteLen(s) == 10 && AllDigits(s[6..]) && DigitsValue(s[6..]) == r.value.year
  {
    if DayMonthYearShape(s) then
      var day := DigitsValue(s[0..2]);
      var month := DigitsValue(s[3..5]);
      var year := DigitsValue(s[6..10]);
      if 1 <= month <= 12 && 1 <= day <= DaysIn(month, year) then
        DayMonthYearShapeText(s);
        Some(Date(year, month, day))
      else None
    else None
  }

  /** A DD/MM text whose fields spell a day of a month of year 0 is accepted as that day. */
  lemma DayMonthAccepted(s: string, day: int, month: int)
    requires |s| == 5 && DayMonthShape(s)
    requires DigitsValue(s[0..2]) == day && DigitsValue(s[3..5]) == month
    requires 1 <= month <= 12 && 1 <= day <= DaysIn(month, 0)
    ensures ParseDayMonth(s) == Some(Date(0, month, day)) && ByteLen(s) == 5
  {
  }

  /** A DD/MM/YYYY text whose fields spell an existing date is accepted as that date. */
  lemma DayMonthYearAccepted(s: string, day: int, month: int, year: int)
    requires DayMonthYearShape(s)
    requires DigitsValue(s[0..2]) == day && DigitsValue(s[3..5]) == month && DigitsValue(s[6..10]) == year
    requires 1 <= month <= 12 && 1 <= day <= DaysIn(month, year)
    ensures ParseDayMonthYear(s) == Some(Date(year, month, day)) && ByteLen(s) == 10
  {
  }

  /** Every valid day and month, printed with "02/01", parses back to itself (in year 0). */
  lemma ParseOfFormatDayMonth(t: Date)
    requires ValidDate(t) && t.year == 0
    ensures ParseDayMonth(FormatDayMonth(t)) == Some(t)
  {
    var s := FormatDayMonth(t);
    assert Pow10(2) == 100;
    DigitsValueOfZeroPad(t.day, 2);
    DigitsValueOfZeroPad(t.month, 2);
    assert s[0..2] == ZeroPad(t.day, 2);
    assert s[3..5] == ZeroPad(t.month, 2);
  }

  /** Every valid date of years 0..9999, printed with "02/01/2006", parses back to itself. */
  lemma ParseOfFormatDayMonthYear(t: Date)
    requires ValidDate(t) && 0 <= t.year <= 9999
    ensures ParseDayMonthYear(FormatDayMonthYear(t)) == Some(t)
  {
    var s := FormatDayMonthYear(t);
    assert Pow10(2) == 100;
    assert Pow10(4) == 10000;
    DigitsValueOfZeroPad(t.day, 2);
    DigitsValueOfZeroPad(t.month, 2);
    DigitsValueOfZeroPad(t.year, 4);
    assert s[0..2] == ZeroPad(t.day, 2);
    assert s[3..5] == ZeroPad(t.month, 2);
    assert s[6..10] == ZeroPad(t.year, 4);
  }
}
