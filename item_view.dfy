/**
 * The birthday row's two labels and the edit sheet's update action.
 */
module ItemView {
  import opened Wrappers
  import opened Calendar
  import opened Text
  import opened BirthdayItems
  import opened AddBirthdayForm

  const TodayLabel := "Today! \U{1F389}"
  const TomorrowLabel := "Tomorrow"
  const BirthdayTodayLabel := "Birthday today! \U{1F389}"

  /** `daysText` for a record `days` days away. */
  function DaysText(days: int): (r: string)
    ensures r == TodayLabel <==> days == 0
    ensures r == TomorrowLabel <==> days == 1
  {
    if days == 0 then TodayLabel
    else if days == 1 then TomorrowLabel
    else
      var r := "In " + IntToString(days) + " days";
      assert r[0] == 'I';
      r
  }

  /** From two days on, the label reads "In <n> days" and its digits read back as the count. */
  lemma DaysTextShowsCount(n: int)
    requires n >= 2
    ensures var r := DaysText(n);
            |r| > 8 && r[..3] == "In " && r[|r| - 5..] == " days" &&
            (forall i :: 3 <= i < |r| - 5 ==> '0' <= r[i] <= '9') &&
            DecimalValue(r[3..|r| - 5]) == n
  {
    var r := DaysText(n);
    var digits := NatToDecimal(n);
    assert IntToString(n) == digits;
    assert r == "In " + digits + " days";
    assert r[3..|r| - 5] == digits;
    DecimalRoundTrip(n);
  }

  /** No two day counts share a label. */
  lemma DaysTextInjective(a: int, b: int)
    requires DaysText(a) == DaysText(b)
    ensures a == b
  {
    if a != 0 && a != 1 && b != 0 && b != 1 {
      var ta, tb := IntToString(a), IntToString(b);
      assert DaysText(a)[3..|DaysText(a)| - 5] == ta;
      assert DaysText(b)[3..|DaysText(b)| - 5] == tb;
      IntToStringInjective(a, b);
    }
  }

  /** The row celebrates exactly on the day this year's birthday, as the calendar resolves it, is today. */
  lemma DaysTextCelebratesOnTheDay(b: BirthdayItem, today: CivilDate)
    requires InRange(b) && ValidDate(today)
    ensures DaysText(DaysUntil(b, today)) == TodayLabel <==> Normalize(today.year, b.month, b.day) == today
  {
    DaysUntilZeroIff(b, today);
  }

  /**
   * `ageText`: the celebration line on the day itself, otherwise the
   * formatted next birthday `birthdayString` (a formatter result).
   */
  function AgeText(days: int, birthdayString: string): (r: string)
    ensures days == 0 ==> r == BirthdayTodayLabel
    ensures days != 0 ==> r == birthdayString
  {
    if days == 0 then BirthdayTodayLabel else birthdayString
  }

  /** With a "MMM d" date string (never the celebration line), the line celebrates exactly on the day. */
  lemma AgeTextCelebratesOnTheDay(b: BirthdayItem, today: CivilDate, birthdayString: string)
    requires InRange(b) && ValidDate(today) && birthdayString != BirthdayTodayLabel
    ensures AgeText(DaysUntil(b, today), birthdayString) == BirthdayTodayLabel <==>
              Normalize(today.year, b.month, b.day) == today
  {
    DaysUntilZeroIff(b, today);
  }

  /** The record an edit stores: the edited fields over the original's id, owner and creation time. */
  function EditedRecord(original: BirthdayItem, name: string, month: int, day: int, notes: string): (r: BirthdayItem)
    ensures r.id == original.id && r.userId == original.userId && r.createdAt == original.createdAt
    ensures r.name == Trim(name) && r.notes == NotesValue(notes) && r.month == month && r.day == day
  {
    BirthdayItem(original.id, Trim(name), month, day, original.userId, NotesValue(notes), original.createdAt)
  }

  /** Saving the edit sheet untouched on a record the add form stored gives that record back. */
  lemma UnchangedEditKeepsRecord(id: string, name: string, month: int, day: int, userId: string,
                                 notes: string, createdAt: int)
    ensures var saved := NewRecord(id, name, month, day, userId, notes, createdAt);
            EditedRecord(saved, saved.name, saved.month, saved.day, saved.notes.GetOr("")) == saved
  {
    TrimIdempotent(name);
    if !AllWhitespace(notes) {
      TrimIdempotent(notes);
    }
  }

  class EditBirthdayView {
    var name: string
    var month: int
    var day: int
    var notes: string
    var errorMessage: string
    var isLoading: bool
    const originalBirthday: BirthdayItem

    /** The sheet opens on the record's current values; absent notes show as empty text. */
    constructor (birthday: BirthdayItem)
      ensures originalBirthday == birthday
      ensures name == birthday.name && month == birthday.month && day == birthday.day
      ensures notes == birthday.notes.GetOr("")
      ensures errorMessage == "" && !isLoading
    {
      originalBirthday := birthday;
      name, month, day := birthday.name, birthday.month, birthday.day;
      notes := birthday.notes.GetOr("");
      errorMessage, isLoading := "", false;
    }

    /**
     * The add form's guard chain, then the update. Returns the record handed
     * to the list's update, if the guards pass.
     */
    method UpdateBirthday() returns (update: Option<BirthdayItem>)
      modifies this`errorMessage, this`isLoading
      ensures FormError(name, month, day) != None ==>
                update == None && errorMessage == FormError(name, month, day).value && isLoading == old(isLoading)
      ensures FormError(name, month, day) == None ==>
                update == Some(EditedRecord(originalBirthday, name, month, day, notes)) &&
                errorMessage == "" && isLoading
    {
      if AllWhitespace(name) {
        errorMessage := NameMissing;
        return None;
      }
      if !(1 <= month <= 12) {
        errorMessage := MonthInvalid;
        return None;
      }
      if !(1 <= day <= 31) {
        errorMessage := DayInvalid;
        return None;
      }
      if !DayExistsIn2024(month, day) {
        errorMessage := DateInvalid;
        return None;
      }
      isLoading := true;
      errorMessage := "";
      update := Some(EditedRecord(originalBirthday, name, month, day, notes));
    }

    /** The delayed completion half a second after the update. */
    method UpdateSettled()
      modifies this`isLoading
      ensures !isLoading
    {
      isLoading := false;
    }
  }
}
