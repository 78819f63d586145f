/**
 * The add-birthday form: its ordered validation, the record it builds and
 * the form reset after a successful store. The edit form reuses the same
 * validation and notes rule.
 */
module AddBirthdayForm {
  import opened Wrappers
  import opened Calendar
  import opened Text
  import opened BirthdayItems

  const NameMissing := "Please enter a name"
  const MonthInvalid := "Please select a valid month"
  const DayInvalid := "Please select a valid day"
  const DateInvalid := "Invalid date (e.g., February 30th doesn't exist)"
  const NotSignedIn := "User not authenticated"

  /** The day exists in that month of 2024, a leap year, so 29 February is accepted. */
  predicate DayExistsIn2024(month: int, day: int) {
    ValidDate(CivilDate(2024, month, day))
  }

  /** The form's guard chain: the message of the first guard that fails, or None. */
  function FormError(name: string, month: int, day: int): (r: Option<string>)
    ensures r == None <==>
              !AllWhitespace(name) && 1 <= month <= 12 && 1 <= day <= 31 && DayExistsIn2024(month, day)
  {
    if AllWhitespace(name) then Some(NameMissing)
    else if !(1 <= month <= 12) then Some(MonthInvalid)
    else if !(1 <= day <= 31) then Some(DayInvalid)
    else if !DayExistsIn2024(month, day) then Some(DateInvalid)
    else None
  }

  /** Which message the chain reports, guard by guard: a blank name first, then the month, the day, the date. */
  lemma FormErrorOrder(name: string, month: int, day: int)
    ensures FormError(name, month, day) == Some(NameMissing) <==> AllWhitespace(name)
    ensures FormError(name, month, day) == Some(MonthInvalid) <==> !AllWhitespace(name) && !(1 <= month <= 12)
    ensures FormError(name, month, day) == Some(DayInvalid) <==>
              !AllWhitespace(name) && 1 <= month <= 12 && !(1 <= day <= 31)
    ensures FormError(name, month, day) == Some(DateInvalid) <==>
              !AllWhitespace(name) && 1 <= month <= 12 && 1 <= day <= 31 && !DayExistsIn2024(month, day)
  {
  }

  /**
   * The date guard as written: it asks whether `Calendar.date(from:)` yields
   * a date, which a lenient calendar does for every month and day.
   */
  predicate CalendarYieldsDate(month: int, day: int) {
    ValidDate(Normalize(2024, month, day))
  }

  function FormErrorAsWritten(name: string, month: int, day: int): (r: Option<string>)
    ensures r == None <==> !AllWhitespace(name) && 1 <= month <= 12 && 1 <= day <= 31
  {
    if AllWhitespace(name) then Some(NameMissing)
    else if !(1 <= month <= 12) then Some(MonthInvalid)
    else if !(1 <= day <= 31) then Some(DayInvalid)
    else if !CalendarYieldsDate(month, day) then Some(DateInvalid)
    else None
  }

  /** As written, the date guard never fires. */
  lemma AsWrittenDateGuardNeverFires(name: string, month: int, day: int)
    ensures FormErrorAsWritten(name, month, day) != Some(DateInvalid)
  {
  }

  /** In a leap year the calendar reads 30 February as 1 March. */
  lemma February30InLeapYear(y: int)
    requires IsLeapYear(y)
    ensures Normalize(y, 2, 30) == CivilDate(y, 3, 1)
  {
  }

  /** As written, 30 February passes the form and is stored as a birthday on 1 March; the corrected chain rejects it. */
  lemma AsWrittenAcceptsFebruary30()
    ensures FormErrorAsWritten("Ann", 2, 30) == None
    ensures FormError("Ann", 2, 30) == Some(DateInvalid)
    ensures Normalize(2024, 2, 30) == CivilDate(2024, 3, 1)
  {
    assert !AllWhitespace("Ann") by {
      assert !IsWhitespace("Ann"[0]);
    }
    February30InLeapYear(2024);
  }

  /** The corrected chain accepts a month and day exactly when they name a day of 2024. */
  lemma FormAcceptsExactlyRealDays(name: string, month: int, day: int)
    requires !AllWhitespace(name)
    ensures FormError(name, month, day) == None <==> ValidDate(CivilDate(2024, month, day))
    ensures FormError(name, 2, 29) == None
    ensures FormError(name, 2, 30) != None && FormError(name, 4, 31) != None
  {
  }

  /** Notes are stored trimmed, and not at all when they are blank. */
  function NotesValue(notes: string): (r: Option<string>)
    ensures r == None <==> AllWhitespace(notes)
    ensures r != None ==> r.value == Trim(notes) && r.value != []
  {
    if AllWhitespace(notes) then None else Some(Trim(notes))
  }

  /** The record the form stores. */
  function NewRecord(id: string, name: string, month: int, day: int, userId: string,
                     notes: string, createdAt: int): (b: BirthdayItem)
    ensures b.id == id && b.userId == userId && b.createdAt == createdAt
    ensures b.name == Trim(name) && b.notes == NotesValue(notes)
    ensures b.month == month && b.day == day
    ensures FormError(name, month, day) == None ==>
              InRange(b) && b.name != [] && DayExistsIn2024(b.month, b.day)
  {
    BirthdayItem(id, Trim(name), month, day, userId, NotesValue(notes), createdAt)
  }

  class AddBirthdayViewModel {
    var name: string
    var month: int
    var day: int
    var notes: string
    var errorMessage: string
    var isLoading: bool

    /** The pickers start on today's month and day. */
    constructor (today: CivilDate)
      ensures name == "" && month == today.month && day == today.day && notes == ""
      ensures errorMessage == "" && !isLoading
    {
      name, month, day, notes := "", today.month, today.day, "";
      errorMessage, isLoading := "", false;
    }

    method Validate() returns (ok: bool)
      modifies this`errorMessage
      ensures ok <==> FormError(name, month, day) == None
      ensures errorMessage == FormError(name, month, day).GetOr("")
      ensures name == old(name) && month == old(month) && day == old(day) && notes == old(notes)
    {
      errorMessage := "";
      if AllWhitespace(name) {
        errorMessage := NameMissing;
        return false;
      }
      if !(1 <= month <= 12) {
        errorMessage := MonthInvalid;
        return false;
      }
      if !(1 <= day <= 31) {
        errorMessage := DayInvalid;
        return false;
      }
      if !DayExistsIn2024(month, day) {
        errorMessage := DateInvalid;
        return false;
      }
      return true;
    }

    /**
     * Validates, builds the record and stores it. `currentUser` is the signed-in
     * user, `newId` and `createdAt` the generated id and creation time,
     * `storeError` the store's failure, if any. Returns the record written.
     */
    method AddBirthday(currentUser: Option<string>, newId: string, createdAt: int,
                       storeError: Option<string>, today: CivilDate)
      returns (written: Option<BirthdayItem>)
      modifies this
      ensures var err := FormError(old(name), old(month), old(day));
              err != None ==>
                written == None && errorMessage == err.value && isLoading == old(isLoading) &&
                name == old(name) && month == old(month) && day == old(day) && notes == old(notes)
      ensures FormError(old(name), old(month), old(day)) == None && currentUser == None ==>
                written == None && errorMessage == NotSignedIn && isLoading == old(isLoading) &&
                name == old(name) && month == old(month) && day == old(day) && notes == old(notes)
      ensures FormError(old(name), old(month), old(day)) == None && currentUser != None && storeError == None ==>
                written == Some(NewRecord(newId, old(name), old(month), old(day), currentUser.value, old(notes), createdAt)) &&
                name == "" && month == today.month && day == today.day && notes == "" &&
                errorMessage == "" && !isLoading
      ensures FormError(old(name), old(month), old(day)) == None && currentUser != None && storeError != None ==>
                written == None && errorMessage == "Failed to add birthday: " + storeError.value && !isLoading &&
                name == old(name) && month == old(month) && day == old(day) && notes == old(notes)
    {
      var ok := Validate();
      if !ok {
        return None;
      }
      if currentUser == None {
        errorMessage := NotSignedIn;
        return None;
      }
      isLoading := true;
      errorMessage := "";
      var item := NewRecord(newId, name, month, day, currentUser.value, notes, createdAt);
      written := Store(item, storeError, today);
    }

    /**
     * The store step of `AddBirthday`: writes `item` and, on success, resets
     * the form to today's month and day. Loading ends either way.
     */
    method Store(item: BirthdayItem, storeError: Option<string>, today: CivilDate)
      returns (written: Option<BirthdayItem>)
      modifies this
      ensures !isLoading
      ensures storeError == None ==>
                written == Some(item) && errorMessage == old(errorMessage) &&
                name == "" && month == today.month && day == today.day && notes == ""
      ensures storeError != None ==>
                written == None && errorMessage == "Failed to add birthday: " + storeError.value &&
                name == old(name) && month == old(month) && day == old(day) && notes == old(notes)
    {
      if storeError == None {
        written := Some(item);
        name, month, day, notes := "", today.month, today.day, "";
      } else {
        written := None;
        errorMessage := "Failed to add birthday: " + storeError.value;
      }
      isLoading := false;
    }
  }
}
