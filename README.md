# RememberBirthday in Dafny

A Dafny model of the logic at the heart of the RememberBirthday iOS app. The app stores birthdays as a
month and a day with no year. The model covers four parts:

- **Recurrence engine** (`BirthdayItems`, over the lenient civil calendar in `Calendar`). It finds a
  record's next birthday, either this year's occurrence or next year's once this year's is past, and
  the whole days left until it.
- **List view models** (`BirthdayList`, `UpcomingBirthdays`). They parse and sort a snapshot of the
  user's records. They derive the "upcoming" view (at most 90 or 30 days away, nearest first) and the
  "today" view.
- **Notification planner** (`UpcomingBirthdays`). It clears the pending local notifications and
  schedules one reminder for each of the first ten upcoming records. Reminders are keyed
  `birthday_<id>` and fire at midnight on the next birthday.
- **Forms** (`AddBirthdayForm`, `ItemView`, `Register`, `Login`). These are the add-birthday form, the
  edit sheet, the registration form and the login form. Each is an ordered guard chain that sets an
  error message, plus the record or state change that follows.

How the app's environment becomes part of the model:

- **Dates.** A date is a `CivilDate` in the proleptic Gregorian calendar. Day numbers count from
  1 January 2001.
- **The clock.** The current instant becomes a `today: CivilDate` parameter, and the start of today
  becomes its day number.
- **Building dates from components.** `Calendar.date(from:)` is modelled as lenient normalisation,
  `Calendar.Normalize`:
  - a month past 12 carries into the next year;
  - a day past the month's end carries into the next month.

  So 29 February in a common year is 1 March, and 30 February 2024 is 1 March 2024. This holds
  wherever a date is built (next birthday, days left, reminders). The date guard of the add form and
  the edit sheet is the exception: it is modelled as the check its comment and message describe, "the
  day exists in that month of 2024", not as the lenient call (see "## Left out" and "## Findings").
- **Services.** Firebase Auth, Firestore and the notification centre appear only through their
  outcomes. Those outcomes are parameters: the signed-in user, a store error, an `AuthResult`, a
  `Snapshot` of decoded documents. The notification centre is a class holding a map from identifier
  to pending request.

Module by module:

- `Calendar` covers leap years, month lengths, day numbers, and lenient normalisation from components.
- `Text` covers trimming of `CharacterSet.whitespaces` (tab and the Unicode space separators, no line
  breaks) and decimal rendering of integers.
- `Sequences` covers Swift's `filter`, `sorted(by:)` and `prefix(_:)` as functions on sequences.
  Swift's `sorted(by:)` is stable (Swift Evolution proposal SE-0372), and so is `SortBy`: records
  with equal keys keep their input order (`Sequences.SortByStable`).
- `BirthdayItems` covers `BirthdayItem`, `nextBirthday`, `daysUntilBirthday` and `age`. The
  memberwise `init` (RememberBirthday/Models/BirthdayItem.swift:20-28) is the datatype's constructor
  `BirthdayItem(id, name, month, day, userId, notes, createdAt)`: it stores every argument as given.
- `BirthdayList` covers `BirthdayItemViewModel`.
- `UpcomingBirthdays` covers `UpcomingBirthdayViewModel` and the notification centre.
- `AddBirthdayForm` covers `AddBirthdayViewModel` and the guard chain it shares with the edit sheet.
- `ItemView` covers the row labels of `BirthdayItemView` and `EditBirthdayView.updateBirthday`.
- `Register` and `Login` cover `RegisterViewModel` and `LoginViewModel`.

## Model

| member | source | states |
|---|---|---|
| Calendar.DaysInMonth | RememberBirthday/ViewModels/AddBirthdayViewModel.swift:76-79 | a month has 28 to 31 days, and 29 exactly for February of a leap year (divisible by 4, centuries only when divisible by 400) |
| Calendar.CarryDays | RememberBirthday/Models/BirthdayItem.swift:54-58 | a day count past the month's end (or before its start) is carried into the neighbouring months: the result is a real date with the same day number, and a day that already exists is kept as it is |
| Calendar.Normalize | RememberBirthday/Models/BirthdayItem.swift:54-58 | building a date from year, month and day always yields a real date whose day number is that of the components, month overflow carried into the year; components that already name a real date yield that date |
| Calendar.LeapDayInCommonYear | RememberBirthday/Models/BirthdayItem.swift:54-58 | a 29 February birthday in a common year resolves to 1 March of that year |
| Calendar.DateNumberInjective | RememberBirthday/Models/BirthdayItem.swift:61 | two real dates with the same day number are the same date, so comparing instants at midnight is comparing dates |
| Calendar.DayNumberGrowsWithYear | RememberBirthday/Models/BirthdayItem.swift:61-66 | the same month and day falls later in every later year |
| Text.Trim | RememberBirthday/ViewModels/AddBirthdayViewModel.swift:36 | trimming gives the empty string exactly when the text is all whitespace, and otherwise neither end of the result is whitespace |
| Text.TrimSlice | RememberBirthday/ViewModels/AddBirthdayViewModel.swift:36 | the trimmed text is a contiguous slice of the input with only whitespace cut off on either side |
| Text.TrimIdempotent | RememberBirthday/Views/BirthdayItemView.swift:237-241 | trimming an already trimmed text changes nothing |
| Text.DecimalRoundTrip | RememberBirthday/Views/BirthdayItemView.swift:22 | the decimal digits of a count read back as that count |
| Text.IntToString | RememberBirthday/Views/BirthdayItemView.swift:22 | the text is non-empty, starts with "-" exactly for a negative number, and is decimal digits after that |
| Text.IntToStringInjective | RememberBirthday/Views/BirthdayItemView.swift:22 | different counts are rendered as different texts |
| Sequences.Filter | RememberBirthday/ViewModels/BirthdayItemViewModel.swift:140 | an element is kept exactly when it is in the input and satisfies the predicate |
| Sequences.FilterCount | RememberBirthday/ViewModels/BirthdayItemViewModel.swift:140 | each element is kept as many times as it occurs when it satisfies the predicate, and never otherwise |
| Sequences.FilterConcat | RememberBirthday/ViewModels/BirthdayItemViewModel.swift:145 | filtering keeps the input's order: the filter of a concatenation is the concatenation of the filters |
| Sequences.SortBy | RememberBirthday/ViewModels/BirthdayItemViewModel.swift:141 | the result is non-decreasing in the key and a permutation of the input |
| Sequences.SortByStable | RememberBirthday/ViewModels/BirthdayItemViewModel.swift:141 | the sort is stable: the elements with any one key appear in the result in their input order |
| Sequences.Prefix | RememberBirthday/ViewModels/UpcomingBirthdayViewModel.swift:69 | the first `min(n, count)` elements, in order |
| BirthdayItems.FromDate | RememberBirthday/Models/BirthdayItem.swift:31-40 | the record keeps the date's month and day components and every other argument unchanged; a real date gives months 1..12 and days 1..31 |
| BirthdayItems.FromDateForgetsYear | RememberBirthday/Models/BirthdayItem.swift:31-40 | dates that differ only in the year give the same record |
| BirthdayItems.Age | RememberBirthday/Models/BirthdayItem.swift:42-46 | the age is always 0 |
| BirthdayItems.NextBirthday | RememberBirthday/Models/BirthdayItem.swift:48-70 | the next birthday is a real date, and it is this year's occurrence or next year's |
| BirthdayItems.NextBirthdayNumber | RememberBirthday/Models/BirthdayItem.swift:60-67 | the next birthday falls on this year's occurrence, or on next year's once this year's is before the start of today |
| BirthdayItems.NextBirthdayIsEarliest | RememberBirthday/Models/BirthdayItem.swift:60-67 | the next birthday is never before the start of today, and it is the earliest occurrence in any year that is not before today |
| BirthdayItems.TodayIsNotPassed | RememberBirthday/Models/BirthdayItem.swift:61 | a birthday falling on today is returned unchanged (the comparison is strict), with 0 days left |
| BirthdayItems.PassedMovesToNextYear | RememberBirthday/Models/BirthdayItem.swift:61-66 | a birthday before today this year moves to the same month and day of next year, as the calendar resolves it |
| BirthdayItems.DaysUntil | RememberBirthday/Models/BirthdayItem.swift:72-84 | the days left are 0 exactly when the next birthday is today |
| BirthdayItems.DaysUntilBounds | RememberBirthday/Models/BirthdayItem.swift:72-84 | the days left are between 0 and 365 |
| BirthdayItems.DaysUntilZeroIff | RememberBirthday/Models/BirthdayItem.swift:61-82 | 0 days are left exactly when this year's birthday, as the calendar resolves it, is today |
| BirthdayList.Upcoming | RememberBirthday/ViewModels/BirthdayItemViewModel.swift:139-142 | the upcoming view is non-decreasing in days left, and holds each record within the window exactly as often as the list does and no other record |
| BirthdayList.DueToday | RememberBirthday/ViewModels/BirthdayItemViewModel.swift:144-146 | a record is in the today view exactly when it is in the list and 0 days away |
| BirthdayList.DueTodayConcat | RememberBirthday/ViewModels/BirthdayItemViewModel.swift:144-146 | the today view keeps the list's order |
| BirthdayList.DueTodayCount | RememberBirthday/ViewModels/BirthdayItemViewModel.swift:144-146 | each record due today occurs in the today view as often as in the list |
| BirthdayList.DueTodayWithinUpcoming | RememberBirthday/ViewModels/BirthdayItemViewModel.swift:139-146 | every record of the today view is also in the upcoming view |
| BirthdayList.Parsed | RememberBirthday/ViewModels/BirthdayItemViewModel.swift:66-75 | the parsed records are exactly the documents that decoded, each as often as it occurs; documents that fail to decode are dropped |
| BirthdayList.ByNextBirthday | RememberBirthday/ViewModels/BirthdayItemViewModel.swift:76 | the list is a permutation of its input, ascending by next birthday |
| BirthdayList.BirthdayItemViewModel.constructor | RememberBirthday/ViewModels/BirthdayItemViewModel.swift:13-23 | the model starts empty, not loading, with no error and no listener |
| BirthdayList.BirthdayItemViewModel.FetchBirthdays | RememberBirthday/ViewModels/BirthdayItemViewModel.swift:29-42 | with nobody signed in only the error is set; otherwise loading starts, the error clears and the user's query is listened to |
| BirthdayList.BirthdayItemViewModel.ApplySnapshot | RememberBirthday/ViewModels/BirthdayItemViewModel.swift:43-76 | loading stops; an error sets the message and keeps the list; no snapshot empties the list; documents replace the list by the decoded records sorted by next birthday |
| BirthdayList.BirthdayItemViewModel.AddBirthday | RememberBirthday/ViewModels/BirthdayItemViewModel.swift:90-111 | with nobody signed in nothing is written and the error is set; otherwise the record with the given month, day and notes is written for the user, or the store's failure is reported |
| BirthdayList.BirthdayItemViewModel.AddBirthdayOn | RememberBirthday/ViewModels/BirthdayItemViewModel.swift:114-119 | the date form writes exactly the record built from the date's month and day; with nobody signed in it reports that, a failed store reports "Failed to add birthday: " with the error, and a successful one leaves the message alone |
| BirthdayList.BirthdayItemViewModel.UpcomingBirthdays | RememberBirthday/ViewModels/BirthdayItemViewModel.swift:139-142 | the view is ascending by days left and holds each record of the list exactly as often as it occurs there when it is at most 90 days away, and never otherwise |
| BirthdayList.BirthdayItemViewModel.TodaysBirthdays | RememberBirthday/ViewModels/BirthdayItemViewModel.swift:144-146 | a record is in the view exactly when it is in the list and 0 days away |
| BirthdayList.BirthdayItemViewModel.ClearBirthdays | RememberBirthday/ViewModels/BirthdayItemViewModel.swift:148-155 | afterwards the list is empty, nothing is loading, there is no error and no listener |
| UpcomingBirthdays.ReminderIdentifierInjective | RememberBirthday/ViewModels/UpcomingBirthdayViewModel.swift:87 | records with different ids get different reminder identifiers |
| UpcomingBirthdays.ReminderFor | RememberBirthday/ViewModels/UpcomingBirthdayViewModel.swift:74-90 | the reminder is keyed `birthday_<id>`, titled "Birthday Reminder", names the person in its body, and fires once, at 00:00 |
| UpcomingBirthdays.ReminderFiresOnNextBirthday | RememberBirthday/ViewModels/UpcomingBirthdayViewModel.swift:81-85 | the reminder's date is a real date, the record's days-left after today |
| UpcomingBirthdays.Plan | RememberBirthday/ViewModels/UpcomingBirthdayViewModel.swift:69-70 | one run issues `min(10, count)` requests, the i-th for the i-th upcoming record |
| UpcomingBirthdays.PendingAfterDistinct | RememberBirthday/ViewModels/UpcomingBirthdayViewModel.swift:66-71 | after a run whose identifiers are distinct, exactly those requests are pending, each under its own identifier |
| UpcomingBirthdays.PlanIdentifiersDistinct | RememberBirthday/ViewModels/UpcomingBirthdayViewModel.swift:69-87 | records with distinct ids give a run with distinct identifiers |
| UpcomingBirthdays.PlannedWithinWindow | RememberBirthday/ViewModels/UpcomingBirthdayViewModel.swift:30-85 | every reminder of a run over the 30-day view fires between today and 30 days from today |
| UpcomingBirthdays.NotificationCenter.RemoveAllPendingNotificationRequests | RememberBirthday/ViewModels/UpcomingBirthdayViewModel.swift:66 | nothing is pending afterwards |
| UpcomingBirthdays.NotificationCenter.Add | RememberBirthday/ViewModels/UpcomingBirthdayViewModel.swift:92 | the request becomes pending under its identifier, replacing any request with that identifier |
| UpcomingBirthdays.UpcomingBirthdayViewModel.constructor | RememberBirthday/ViewModels/UpcomingBirthdayViewModel.swift:19-50 | the views start as the 30-day upcoming view and the today view of the list, and the loading flag mirrors the list's |
| UpcomingBirthdays.UpcomingBirthdayViewModel.BirthdaysChanged | RememberBirthday/ViewModels/UpcomingBirthdayViewModel.swift:23-46 | each new list replaces both views by its 30-day upcoming view and its today view |
| UpcomingBirthdays.UpcomingBirthdayViewModel.LoadingChanged | RememberBirthday/ViewModels/UpcomingBirthdayViewModel.swift:48-49 | the loading flag follows the list's and nothing else changes |
| UpcomingBirthdays.UpcomingBirthdayViewModel.ScheduleBirthdayNotifications | RememberBirthday/ViewModels/UpcomingBirthdayViewModel.swift:62-72 | afterwards the pending requests are exactly those added, one by one, by this run's plan, whatever was pending before |
| UpcomingBirthdays.UpcomingBirthdayViewModel.ScheduleNotification | RememberBirthday/ViewModels/UpcomingBirthdayViewModel.swift:74-97 | the record's reminder is added to the pending requests |
| AddBirthdayForm.FormError | RememberBirthday/ViewModels/AddBirthdayViewModel.swift:58-85 | the form passes exactly when the trimmed name is non-empty, the month is 1..12, the day is 1..31 and the day exists in that month of 2024 |
| AddBirthdayForm.FormErrorOrder | RememberBirthday/ViewModels/AddBirthdayViewModel.swift:61-82 | the message is that of the first failing guard, in the order name, month, day, date |
| AddBirthdayForm.FormErrorAsWritten | RememberBirthday/ViewModels/AddBirthdayViewModel.swift:58-85 | as written, the chain passes exactly when the trimmed name is non-empty, the month is 1..12 and the day is 1..31 |
| AddBirthdayForm.AsWrittenDateGuardNeverFires | RememberBirthday/ViewModels/AddBirthdayViewModel.swift:76-82 | as written, the date guard never rejects anything |
| AddBirthdayForm.AsWrittenAcceptsFebruary30 | RememberBirthday/ViewModels/AddBirthdayViewModel.swift:76-82 | as written, "Ann" born 30 February passes the form, and the date resolves to 1 March 2024; the corrected chain rejects it |
| AddBirthdayForm.FormAcceptsExactlyRealDays | RememberBirthday/ViewModels/AddBirthdayViewModel.swift:76-82 | with a name given, the corrected form accepts a month and day exactly when they name a day of 2024: 29 February passes, 30 February and 31 April do not |
| AddBirthdayForm.NotesValue | RememberBirthday/ViewModels/AddBirthdayViewModel.swift:40 | blank notes are stored as absent, other notes trimmed and non-empty |
| AddBirthdayForm.NewRecord | RememberBirthday/ViewModels/AddBirthdayViewModel.swift:35-41 | the record has the trimmed name, the month and day, the user and the notes rule; when the form passes, its name is non-empty and its month and day are a real day of 2024 |
| AddBirthdayForm.AddBirthdayViewModel.constructor | RememberBirthday/ViewModels/AddBirthdayViewModel.swift:13-18 | the form starts blank, with the pickers on today's month and day |
| AddBirthdayForm.AddBirthdayViewModel.Validate | RememberBirthday/ViewModels/AddBirthdayViewModel.swift:58-85 | succeeds exactly when the guard chain passes, leaving the empty message, and otherwise leaves the first failing guard's message |
| AddBirthdayForm.AddBirthdayViewModel.Store | RememberBirthday/ViewModels/AddBirthdayViewModel.swift:43-55 | loading ends either way; a successful write returns the record and resets the form to today's month and day; a failed one writes nothing, keeps the form and reports "Failed to add birthday: " with the error |
| AddBirthdayForm.AddBirthdayViewModel.AddBirthday | RememberBirthday/ViewModels/AddBirthdayViewModel.swift:22-56 | a failed check only sets the message; with nobody signed in nothing is written; a successful store writes the built record and resets the form to today's month and day; a failed store keeps the form and reports the error |
| ItemView.DaysText | RememberBirthday/Views/BirthdayItemView.swift:16-24 | the label is "Today! 🎉" exactly for 0 days and "Tomorrow" exactly for 1 day |
| ItemView.DaysTextShowsCount | RememberBirthday/Views/BirthdayItemView.swift:16-24 | from two days on, the label is "In ", decimal digits and " days", and the digits read back as the count |
| ItemView.DaysTextInjective | RememberBirthday/Views/BirthdayItemView.swift:16-24 | different day counts get different labels ("In N days" otherwise) |
| ItemView.DaysTextCelebratesOnTheDay | RememberBirthday/Views/BirthdayItemView.swift:16-18 | the row celebrates exactly when this year's birthday, as the calendar resolves it, is today |
| ItemView.AgeText | RememberBirthday/Views/BirthdayItemView.swift:26-32 | "Birthday today! 🎉" on the day itself, otherwise the formatted next birthday |
| ItemView.AgeTextCelebratesOnTheDay | RememberBirthday/Views/BirthdayItemView.swift:26-32 | with a formatted date as the alternative, the line celebrates exactly when this year's birthday is today |
| ItemView.EditedRecord | RememberBirthday/Views/BirthdayItemView.swift:235-243 | an edit keeps the original id, owner and creation time, and stores the trimmed name and the notes rule |
| ItemView.UnchangedEditKeepsRecord | RememberBirthday/Views/BirthdayItemView.swift:235-243 | saving the edit sheet untouched on a record the add form stored gives back exactly that record: re-trimming the stored name and notes changes nothing |
| ItemView.EditBirthdayView.constructor | RememberBirthday/Views/BirthdayItemView.swift:130-136 | the sheet opens on the record's values, with absent notes shown as empty text |
| ItemView.EditBirthdayView.UpdateBirthday | RememberBirthday/Views/BirthdayItemView.swift:208-245 | the add form's guard chain with its messages; when a guard fails nothing is updated and the loading flag is unchanged, otherwise loading starts and the edited record is handed on |
| ItemView.EditBirthdayView.UpdateSettled | RememberBirthday/Views/BirthdayItemView.swift:247-250 | loading ends |
| Register.RegisterError | RememberBirthday/ViewModels/RegisterViewModel.swift:62-83 | the form passes exactly when no field is blank, the email contains "@" and ".", and the untrimmed password has at least 6 characters; a blank field is reported first |
| Register.RegisterErrorOrder | RememberBirthday/ViewModels/RegisterViewModel.swift:72-80 | once the fields are filled in, the email rule is reported before the password rule |
| Register.PasswordLengthIsUntrimmed | RememberBirthday/ViewModels/RegisterViewModel.swift:77 | surrounding spaces count towards the six characters |
| Register.ProfileFor | RememberBirthday/Models/User.swift:24-29 | the saved profile has the account's id, the form's name, and the account's email or the empty text |
| Register.RegisterViewModel.constructor | RememberBirthday/ViewModels/RegisterViewModel.swift:13-21 | the form starts blank and not loading |
| Register.RegisterViewModel.Validate | RememberBirthday/ViewModels/RegisterViewModel.swift:62-83 | succeeds exactly when the chain passes, leaving the empty message, and otherwise leaves the first failing rule's message |
| Register.RegisterViewModel.Register | RememberBirthday/ViewModels/RegisterViewModel.swift:23-29 | a failed check leaves the loading flag unchanged; otherwise loading starts with the message cleared |
| Register.RegisterViewModel.CreateUserCompleted | RememberBirthday/ViewModels/RegisterViewModel.swift:31-60 | loading stops; the provider's error, a missing user or a failed save each set their message; otherwise the profile is saved |
| Login.LoginError | RememberBirthday/ViewModels/LoginViewModel.swift:61-76 | the form passes exactly when neither field is blank and the email contains "@" and "."; there is no password length rule |
| Login.LoginWeakerThanRegister | RememberBirthday/ViewModels/LoginViewModel.swift:61-76 | every form registration accepts passes login, but a short password passes login and not registration |
| Login.LoginViewModel.constructor | RememberBirthday/ViewModels/LoginViewModel.swift:18-23 | the model starts logged in exactly when a user is already signed in |
| Login.LoginViewModel.Validate | RememberBirthday/ViewModels/LoginViewModel.swift:61-76 | succeeds exactly when the chain passes, leaving the empty message, and otherwise leaves the first failing rule's message |
| Login.LoginViewModel.Login | RememberBirthday/ViewModels/LoginViewModel.swift:25-31 | a failed check leaves the loading flag unchanged; otherwise loading starts with the message cleared |
| Login.LoginViewModel.SignInCompleted | RememberBirthday/ViewModels/LoginViewModel.swift:33-45 | loading stops; any failure sets the fixed "Failed to log in."; a returned user logs in |
| Login.LoginViewModel.Logout | RememberBirthday/ViewModels/LoginViewModel.swift:49-59 | a successful sign-out logs out and clears email, password and message; a failed one only sets the message |

## Left out

- Firebase Auth, Firestore and `UNUserNotificationCenter` are foreign clients. Their outcomes are
  parameters: the signed-in user, the store error, the `AuthResult`, the decoded snapshot.
- Writes to the store are not modelled as a stored collection. Methods return the record they would
  write.
- `BirthdayItemViewModel.updateBirthday` and `deleteBirthday` only forward a record to the store and
  report its error. They are not part of this model.
- The notification permission request (`requestNotificationPermission`) is left out. So are the
  content's sound and the add call's completion error, which is only logged: every add is taken as
  accepted.
- Combine plumbing, `DispatchQueue` hops, `[weak self]` and `deinit` listener removal are left out.
  Each callback is a method, called with the callback's arguments.
- `DateFormatter` output (`birthdayString`, `formatBirthday`, month symbols) is locale-dependent
  formatting. `ItemView.AgeText` takes the formatted text as a parameter.
- All `print` logging is left out.
- Time zones, daylight-saving shifts and fractional seconds are not modelled. Every date built from
  components is at midnight, and "now" is a calendar date.
- AddBirthdayForm.FormError: the date guard (RememberBirthday/ViewModels/AddBirthdayViewModel.swift:76-82
  and RememberBirthday/Views/BirthdayItemView.swift:224-230) is modelled as the intended check, "the
  day exists in that month of 2024", not as the lenient `Calendar.date(from:)` call, which never
  fails. So this chain, and with it `AddBirthdayViewModel.Validate`, `AddBirthdayViewModel.AddBirthday`
  and `EditBirthdayView.UpdateBirthday`, rejects 30 February and 31 April, which the code as written
  accepts. The chain as written is `AddBirthdayForm.FormErrorAsWritten`.
- BirthdayItems.NextBirthday: the source force-unwraps `Calendar.date(from:)`. The model assumes the
  lenient calendar, which never fails. So 29 February in a common year rolls to 1 March.
- BirthdayItems.DaysUntilBounds: the bound lemmas assume the documented ranges, month 1..12 and day
  1..31, which both forms enforce. Other stored values are resolved by the same normalisation but
  have no proved bound.
- Text.Trim: a string is a sequence of Unicode scalars, not grapheme clusters. So `count` in the
  password rule counts scalars.
- Register.RegisterViewModel.CreateUserCompleted: `createdAt`, the provider's user and the save error
  are parameters. The Codable encoding of the profile is not modelled.
- App setup, SwiftUI layouts, `MainViewModel` and `Item.swift` are not part of this model.

## Findings

| source | as written | input that shows it | evidently intended | confidence | as-written member | corrected member |
|---|---|---|---|---|---|---|
| RememberBirthday/ViewModels/AddBirthdayViewModel.swift:76-82 (and the same guard at RememberBirthday/Views/BirthdayItemView.swift:224-230) | the guard rejects a date only when `Calendar.date(from:)` returns nil, which a lenient Gregorian calendar never does for a month of 1..12 and a day of 1..31 | name "Ann", month 2, day 30: every guard passes and the record is stored; its birthday resolves to 1 March | reject a day that does not exist in that month of 2024, as the guard's comment and message ("February 30th doesn't exist") say | medium, not executed: it depends on the calendar being lenient, which is Foundation's default | AddBirthdayForm.AsWrittenAcceptsFebruary30 | AddBirthdayForm.FormAcceptsExactlyRealDays |
