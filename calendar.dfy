/**
 * The proleptic Gregorian calendar on integer day numbers.
 *
 * A day number counts days from 1 January 2001 (day number 0). Years,
 * months and days are unbounded integers. `DayNumber` is lenient in the way
 * Foundation's `Calendar.date(from:)` is: a month outside 1..12 carries into
 * the neighbouring years and a day outside the month carries into the
 * neighbouring months, so 29 February of a non-leap year is 1 March.
 */
module Calendar {

  /** A calendar date given by its components (Swift's `DateComponents`). */
  datatype CivilDate = CivilDate(year: int, month: int, day: int)

  predicate IsLeapYear(y: int) {
    y % 4 == 0 && (y % 100 != 0 || y % 400 == 0)
  }

  function DaysInYear(y: int): int {
    if IsLeapYear(y) then 366 else 365
  }

  function DaysInMonth(y: int, m: int): (n: int)
    requires 1 <= m <= 12
    ensures 28 <= n <= 31
    ensures n == 29 <==> m == 2 && IsLeapYear(y)
  {
    if m == 2 then (if IsLeapYear(y) then 29 else 28)
    else if m == 4 || m == 6 || m == 9 || m == 11 then 30
    else 31
  }

  /** The components name a day that exists: no carrying needed. */
  predicate ValidDate(c: CivilDate) {
    1 <= c.month <= 12 && 1 <= c.day <= DaysInMonth(c.year, c.month)
  }

  /** Days in the months of year `y` before month `m`. */
  function DaysBeforeMonth(y: int, m: int): (n: int)
    requires 1 <= m <= 12
  {
    (if m > 2 && IsLeapYear(y) then 1 else 0) +
    (if m == 1 then 0 else if m == 2 then 31 else if m == 3 then 59
     else if m == 4 then 90 else if m == 5 then 120 else if m == 6 then 151
     else if m == 7 then 181 else if m == 8 then 212 else if m == 9 then 243
     else if m == 10 then 273 else if m == 11 then 304 else 334)
  }

  lemma DaysBeforeNextMonth(y: int, m: int)
    requires 1 <= m <= 12
    ensures m < 12 ==> DaysBeforeMonth(y, m + 1) == DaysBeforeMonth(y, m) + DaysInMonth(y, m)
    ensures m == 12 ==> DaysBeforeMonth(y, m) + 31 == DaysInYear(y)
  {
  }

  /** Day number of 1 January of year `y`: the lengths of the years from 2001 up to `y`, or back from it. */
  function DaysBeforeYear(y: int): int
    decreases if y < 2001 then 2001 - y else y - 2001
  {
    if y == 2001 then 0
    else if y > 2001 then DaysBeforeYear(y - 1) + DaysInYear(y - 1)
    else DaysBeforeYear(y + 1) - DaysInYear(y)
  }

  /** Consecutive years are exactly one year length apart. */
  lemma DaysBeforeNextYear(y: int)
    ensures DaysBeforeYear(y + 1) == DaysBeforeYear(y) + DaysInYear(y)
  {
  }

  /** Day number of the first day of month `m` of year `y`, `m` carried leniently. */
  function MonthStart(y: int, m: int): int {
    var y' := y + (m - 1) / 12;
    var m' := (m - 1) % 12 + 1;
    DaysBeforeYear(y') + DaysBeforeMonth(y', m')
  }

  lemma MonthStartInYear(y: int, m: int)
    requires 1 <= m <= 12
    ensures MonthStart(y, m) == DaysBeforeYear(y) + DaysBeforeMonth(y, m)
  {
    assert (m - 1) / 12 == 0 && (m - 1) % 12 == m - 1;
  }

  /** Consecutive months are exactly one month length apart, across a year end too. */
  lemma MonthStartNext(y: int, m: int)
    requires 1 <= m <= 12
    ensures m < 12 ==> MonthStart(y, m + 1) == MonthStart(y, m) + DaysInMonth(y, m)
    ensures m == 12 ==> MonthStart(y + 1, 1) == MonthStart(y, m) + 31
  {
    MonthStartInYear(y, m);
    DaysBeforeNextMonth(y, m);
    if m < 12 {
      MonthStartInYear(y, m + 1);
    } else {
      MonthStartInYear(y + 1, 1);
      DaysBeforeNextYear(y);
    }
  }

  /** Day number of the components (y, m, d), with lenient carrying. */
  function DayNumber(y: int, m: int, d: int): int {
    MonthStart(y, m) + d - 1
  }

  function DateNumber(c: CivilDate): int {
    DayNumber(c.year, c.month, c.day)
  }

  /** The valid date named by the month-normalised components (y, m, d), for any day `d`. */
  function CarryDays(y: int, m: int, d: int): (r: CivilDate)
    requires 1 <= m <= 12
    ensures ValidDate(r) && DateNumber(r) == DayNumber(y, m, d)
    ensures 1 <= d <= DaysInMonth(y, m) ==> r == CivilDate(y, m, d)
    decreases if d < 1 then 1 - d else 0, if d < 1 then 0 else d
  {
    if d < 1 then
      if m == 1 then
        MonthStartNext(y - 1, 12);
        CarryDays(y - 1, 12, d + 31)
      else
        MonthStartNext(y, m - 1);
        CarryDays(y, m - 1, d + DaysInMonth(y, m - 1))
    else if d > DaysInMonth(y, m) then
      MonthStartNext(y, m);
      if m == 12 then
        CarryDays(y + 1, 1, d - 31)
      else
        CarryDays(y, m + 1, d - DaysInMonth(y, m))
    else
      CivilDate(y, m, d)
  }

  /**
   * What `Calendar.date(from:)` makes of arbitrary components: the one valid
   * date with the same day number.
   */
  function Normalize(y: int, m: int, d: int): (r: CivilDate)
    ensures ValidDate(r) && DateNumber(r) == DayNumber(y, m, d)
    ensures ValidDate(CivilDate(y, m, d)) ==> r == CivilDate(y, m, d)
  {
    var y', m' := y + (m - 1) / 12, (m - 1) % 12 + 1;
    assert 1 <= m <= 12 ==> y' == y && m' == m;
    MonthStartInYear(y', m');
    CarryDays(y', m', d)
  }

  /** 29 February of a common year is read as 1 March. */
  lemma LeapDayInCommonYear(y: int)
    requires !IsLeapYear(y)
    ensures Normalize(y, 2, 29) == CivilDate(y, 3, 1)
  {
    MonthStartInYear(y, 2);
  }

  /** Later years start later: at least 365 days per year in between. */
  lemma {:induction false} DaysBeforeYearGrows(a: int, b: int)
    requires a <= b
    ensures DaysBeforeYear(a) + 365 * (b - a) <= DaysBeforeYear(b)
    decreases b - a
  {
    if a < b {
      DaysBeforeYearGrows(a, b - 1);
      DaysBeforeNextYear(b - 1);
    }
  }

  /** A valid date lies inside its own year. */
  lemma ValidDateInYear(c: CivilDate)
    requires ValidDate(c)
    ensures DaysBeforeYear(c.year) <= DateNumber(c) < DaysBeforeYear(c.year + 1)
  {
    MonthStartInYear(c.year, c.month);
    DaysBeforeNextYear(c.year);
  }

  /** Day `d` of month `m` stays inside year `y` when `m` is 1..12 and `d` is 1..31. */
  lemma DayNumberInYear(y: int, m: int, d: int)
    requires 1 <= m <= 12 && 1 <= d <= 31
    ensures DaysBeforeYear(y) <= DayNumber(y, m, d) < DaysBeforeYear(y + 1)
  {
    MonthStartInYear(y, m);
    DaysBeforeNextYear(y);
  }

  /** The same month and day (1..12, 1..31) falls later in every later year. */
  lemma DayNumberGrowsWithYear(y1: int, y2: int, m: int, d: int)
    requires 1 <= m <= 12 && 1 <= d <= 31 && y1 < y2
    ensures DayNumber(y1, m, d) < DayNumber(y2, m, d)
  {
    DayNumberInYear(y1, m, d);
    DayNumberInYear(y2, m, d);
    DaysBeforeYearGrows(y1 + 1, y2);
  }

  /** Later months of a year start after earlier months end. */
  lemma {:induction false} DaysBeforeMonthGrows(y: int, m1: int, m2: int)
    requires 1 <= m1 < m2 <= 12
    ensures DaysBeforeMonth(y, m1) + DaysInMonth(y, m1) <= DaysBeforeMonth(y, m2)
    decreases m2 - m1
  {
    DaysBeforeNextMonth(y, m1);
    if m1 + 1 < m2 {
      DaysBeforeMonthGrows(y, m1 + 1, m2);
    }
  }

  /** A valid date is the only valid date with its day number. */
  lemma DateNumberInjective(a: CivilDate, b: CivilDate)
    requires ValidDate(a) && ValidDate(b) && DateNumber(a) == DateNumber(b)
    ensures a == b
  {
    ValidDateInYear(a);
    ValidDateInYear(b);
    if a.year < b.year {
      DaysBeforeYearGrows(a.year + 1, b.year);
    } else if b.year < a.year {
      DaysBeforeYearGrows(b.year + 1, a.year);
    }
    assert a.year == b.year;
    MonthStartInYear(a.year, a.month);
    MonthStartInYear(b.year, b.month);
    if a.month < b.month {
      DaysBeforeMonthGrows(a.year, a.month, b.month);
    } else if b.month < a.month {
      DaysBeforeMonthGrows(a.year, b.month, a.month);
    }
  }
}
