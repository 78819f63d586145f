/**
 * A birthday record (month and day, no year) and the recurrence engine:
 * its next occurrence and the days left until it.
 *
 * "Now" is the `today` parameter: the calendar date of the current instant.
 * The start of today is its day number, and every date built from
 * components lies at midnight, so comparing instants becomes comparing day
 * numbers.
 */
module BirthdayItems {
  import opened Wrappers
  import opened Calendar

  /** A stored birthday. `createdAt` is an opaque timestamp; `month` is meant to be 1..12, `day` 1..31. */
  datatype BirthdayItem = BirthdayItem(
    id: string,
    name: string,
    month: int,
    day: int,
    userId: string,
    notes: Option<string>,
    createdAt: int)

  /** The ranges the record's fields document and that both birthday forms enforce. */
  predicate InRange(b: BirthdayItem) {
    1 <= b.month <= 12 && 1 <= b.day <= 31
  }

  /**
   * The convenience initializer: keeps the month and day components of
   * `birthday` and nothing of its year.
   */
  function FromDate(id: string, name: string, birthday: CivilDate, userId: string,
                    notes: Option<string>, createdAt: int): (b: BirthdayItem)
    ensures b.month == birthday.month && b.day == birthday.day
    ensures b == BirthdayItem(id, name, birthday.month, birthday.day, userId, notes, createdAt)
    ensures ValidDate(birthday) ==> InRange(b)
  {
    BirthdayItem(id, name, birthday.month, birthday.day, userId, notes, createdAt)
  }

  /** Two dates that differ only in the year give the same record. */
  lemma FromDateForgetsYear(id: string, name: string, y1: int, y2: int, m: int, d: int,
                            userId: string, notes: Option<string>, createdAt: int)
    ensures FromDate(id, name, CivilDate(y1, m, d), userId, notes, createdAt)
         == FromDate(id, name, CivilDate(y2, m, d), userId, notes, createdAt)
  {
  }

  /** No birth year is stored, so the age is a constant placeholder. */
  function Age(b: BirthdayItem): (r: int)
    ensures r == 0
  {
    0
  }

  /** Day number of the birthday in year `y`, as `Calendar.date(from:)` resolves it. */
  function OccurrenceIn(b: BirthdayItem, y: int): int {
    DayNumber(y, b.month, b.day)
  }

  /**
   * `nextBirthday`: this year's birthday, or next year's when this year's
   * lies strictly before the start of today.
   */
  function NextBirthday(b: BirthdayItem, today: CivilDate): (r: CivilDate)
    ensures ValidDate(r)
    ensures DateNumber(r) == OccurrenceIn(b, today.year) || DateNumber(r) == OccurrenceIn(b, today.year + 1)
  {
    if OccurrenceIn(b, today.year) < DateNumber(today) then
      Normalize(today.year + 1, b.month, b.day)
    else
      Normalize(today.year, b.month, b.day)
  }

  /** `daysUntilBirthday`: whole days from the start of today to `nextBirthday`. */
  function DaysUntil(b: BirthdayItem, today: CivilDate): (n: int)
    ensures ValidDate(today) ==> (n == 0 <==> NextBirthday(b, today) == today)
  {
    var next := NextBirthday(b, today);
    if ValidDate(today) && DateNumber(next) == DateNumber(today) then
      DateNumberInjective(next, today);
      0
    else
      DateNumber(next) - DateNumber(today)
  }

  /** The next birthday is the earliest occurrence, in any year, that is not before today. */
  lemma NextBirthdayIsEarliest(b: BirthdayItem, today: CivilDate)
    requires InRange(b) && ValidDate(today)
    ensures DateNumber(NextBirthday(b, today)) >= DateNumber(today)
    ensures forall y :: OccurrenceIn(b, y) >= DateNumber(today) ==>
              DateNumber(NextBirthday(b, today)) <= OccurrenceIn(b, y)
  {
    ValidDateInYear(today);
    DayNumberInYear(today.year + 1, b.month, b.day);
    forall y | OccurrenceIn(b, y) >= DateNumber(today)
      ensures DateNumber(NextBirthday(b, today)) <= OccurrenceIn(b, y)
    {
      NotAfterLaterOccurrence(b, today, y);
    }
  }

  lemma NotAfterLaterOccurrence(b: BirthdayItem, today: CivilDate, y: int)
    requires InRange(b) && ValidDate(today)
    requires OccurrenceIn(b, y) >= DateNumber(today)
    ensures DateNumber(NextBirthday(b, today)) <= OccurrenceIn(b, y)
  {
    var y0 := today.year;
    NextBirthdayNumber(b, today);
    if y < y0 {
      EarlierYearsArePast(b, today, y);
    } else if y > y0 {
      DayNumberGrowsWithYear(y0, y, b.month, b.day);
      if y > y0 + 1 {
        DayNumberGrowsWithYear(y0 + 1, y, b.month, b.day);
      }
    }
  }

  /** The day number of the next birthday is this year's occurrence, or next year's once this year's is past. */
  lemma NextBirthdayNumber(b: BirthdayItem, today: CivilDate)
    ensures DateNumber(NextBirthday(b, today)) ==
              if OccurrenceIn(b, today.year) < DateNumber(today) then OccurrenceIn(b, today.year + 1)
              else OccurrenceIn(b, today.year)
  {
  }

  /** In years before the current one the birthday is already past. */
  lemma EarlierYearsArePast(b: BirthdayItem, today: CivilDate, y: int)
    requires InRange(b) && ValidDate(today) && y < today.year
    ensures OccurrenceIn(b, y) < DateNumber(today)
  {
    ValidDateInYear(today);
    DayNumberInYear(y, b.month, b.day);
    DaysBeforeYearGrows(y + 1, today.year);
  }

  /** A birthday falling on today is kept, not moved to next year. */
  lemma TodayIsNotPassed(b: BirthdayItem, today: CivilDate)
    requires ValidDate(today) && b.month == today.month && b.day == today.day
    ensures NextBirthday(b, today) == today
    ensures DaysUntil(b, today) == 0
  {
  }

  /** A birthday already past this year moves to the same month and day of next year. */
  lemma PassedMovesToNextYear(b: BirthdayItem, today: CivilDate)
    requires OccurrenceIn(b, today.year) < DateNumber(today)
    ensures NextBirthday(b, today) == Normalize(today.year + 1, b.month, b.day)
    ensures ValidDate(CivilDate(today.year + 1, b.month, b.day)) ==>
              NextBirthday(b, today) == CivilDate(today.year + 1, b.month, b.day)
  {
    if ValidDate(CivilDate(today.year + 1, b.month, b.day)) {
      DateNumberInjective(NextBirthday(b, today), CivilDate(today.year + 1, b.month, b.day));
    }
  }

  /** The days left are never negative and never reach a full leap year. */
  lemma DaysUntilBounds(b: BirthdayItem, today: CivilDate)
    requires InRange(b) && ValidDate(today)
    ensures 0 <= DaysUntil(b, today) <= 365
  {
    NextBirthdayIsEarliest(b, today);
    var y0 := today.year;
    ValidDateInYear(today);
    DayNumberInYear(y0, b.month, b.day);
    DayNumberInYear(y0 + 1, b.month, b.day);
    DaysBeforeNextYear(y0);
    DaysBeforeNextYear(y0 + 1);
    MonthStartInYear(y0, b.month);
    MonthStartInYear(y0 + 1, b.month);
  }

  /** Zero days are left exactly when this year's birthday, as the calendar resolves it, is today. */
  lemma DaysUntilZeroIff(b: BirthdayItem, today: CivilDate)
    requires InRange(b) && ValidDate(today)
    ensures DaysUntil(b, today) == 0 <==> Normalize(today.year, b.month, b.day) == today
  {
    if DaysUntil(b, today) == 0 {
      if OccurrenceIn(b, today.year) < DateNumber(today) {
        ValidDateInYear(today);
        DayNumberInYear(today.year + 1, b.month, b.day);
      }
      DateNumberInjective(Normalize(today.year, b.month, b.day), today);
    }
  }
}
