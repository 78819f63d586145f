/**
 * The birthday list view model: the records of the signed-in user, kept
 * sorted by next birthday, and the "upcoming" and "today" views derived
 * from them.
 */
module BirthdayList {
  import opened Wrappers
  import opened Calendar
  import opened Sequences
  import opened BirthdayItems

  /** The window of the list's own upcoming view. */
  const ListWindow: int := 90

  /** Records whose birthday is at most `window` days away, nearest first. */
  function Upcoming(items: seq<BirthdayItem>, today: CivilDate, window: int): (r: seq<BirthdayItem>)
    ensures forall i, j :: 0 <= i < j < |r| ==> DaysUntil(r[i], today) <= DaysUntil(r[j], today)
    ensures forall b :: multiset(r)[b] == if DaysUntil(b, today) <= window then multiset(items)[b] else 0
  {
    var key := (b: BirthdayItem) => DaysUntil(b, today);
    var within := Filter(items, (b: BirthdayItem) => DaysUntil(b, today) <= window);
    var r := SortBy(within, key);
    assert SortedBy(r, key);
    forall b ensures multiset(r)[b] == if DaysUntil(b, today) <= window then multiset(items)[b] else 0 {
      FilterCount(items, (b: BirthdayItem) => DaysUntil(b, today) <= window, b);
    }
    r
  }

  /** Records whose birthday is today, in list order. */
  function DueToday(items: seq<BirthdayItem>, today: CivilDate): (r: seq<BirthdayItem>)
    ensures forall b :: b in r <==> b in items && DaysUntil(b, today) == 0
  {
    Filter(items, (b: BirthdayItem) => DaysUntil(b, today) == 0)
  }

  /** The today view of a concatenation is the concatenation of the today views: the order is the list's. */
  lemma DueTodayConcat(a: seq<BirthdayItem>, c: seq<BirthdayItem>, today: CivilDate)
    ensures DueToday(a + c, today) == DueToday(a, today) + DueToday(c, today)
  {
    FilterConcat(a, c, (b: BirthdayItem) => DaysUntil(b, today) == 0);
  }

  /** Each record is in the today view as often as in the list when its birthday is today. */
  lemma DueTodayCount(items: seq<BirthdayItem>, today: CivilDate, b: BirthdayItem)
    ensures multiset(DueToday(items, today))[b] == if DaysUntil(b, today) == 0 then multiset(items)[b] else 0
  {
    FilterCount(items, (b: BirthdayItem) => DaysUntil(b, today) == 0, b);
  }

  /** With a window of at least zero days, today's birthdays are all among the upcoming ones. */
  lemma DueTodayWithinUpcoming(items: seq<BirthdayItem>, today: CivilDate, window: int)
    requires window >= 0
    ensures multiset(DueToday(items, today)) <= multiset(Upcoming(items, today, window))
  {
    forall b ensures multiset(DueToday(items, today))[b] <= multiset(Upcoming(items, today, window))[b] {
      DueTodayCount(items, today, b);
    }
  }

  /** The parsed records of a snapshot (`compactMap`): the documents that decoded, in order. */
  function Parsed(docs: seq<Option<BirthdayItem>>): (r: seq<BirthdayItem>)
    ensures |r| <= |docs|
    ensures forall b :: multiset(r)[b] == multiset(docs)[Some(b)]
  {
    if docs == [] then []
    else
      assert docs == [docs[0]] + docs[1..];
      (if docs[0].Some? then [docs[0].value] else []) + Parsed(docs[1..])
  }

  /** `sorted { $0.nextBirthday < $1.nextBirthday }`. */
  function ByNextBirthday(items: seq<BirthdayItem>, today: CivilDate): (r: seq<BirthdayItem>)
    ensures multiset(r) == multiset(items)
    ensures forall i, j :: 0 <= i < j < |r| ==>
              DateNumber(NextBirthday(r[i], today)) <= DateNumber(NextBirthday(r[j], today))
  {
    var key := (b: BirthdayItem) => DateNumber(NextBirthday(b, today));
    var r := SortBy(items, key);
    assert SortedBy(r, key);
    r
  }

  /** What the snapshot listener delivers. */
  datatype Snapshot =
    | Failed(message: string)                        // the listener reported an error
    | Missing                                        // no snapshot came with the call
    | Documents(docs: seq<Option<BirthdayItem>>)     // each document, decoded or not

  /** The listener registration: a live query on the records of one user. */
  datatype Listener = Listener(userId: string)

  class BirthdayItemViewModel {
    var birthdays: seq<BirthdayItem>
    var isLoading: bool
    var errorMessage: string
    var listener: Option<Listener>

    constructor ()
      ensures birthdays == [] && !isLoading && errorMessage == "" && listener == None
    {
      birthdays := [];
      isLoading := false;
      errorMessage := "";
      listener := None;
    }

    /** Subscribes to the signed-in user's records; with nobody signed in it only reports that. */
    method FetchBirthdays(currentUser: Option<string>)
      modifies this
      ensures birthdays == old(birthdays)
      ensures currentUser == None ==>
                errorMessage == "User not authenticated" && isLoading == old(isLoading) && listener == old(listener)
      ensures currentUser != None ==>
                isLoading && errorMessage == "" && listener == Some(Listener(currentUser.value))
    {
      if currentUser == None {
        errorMessage := "User not authenticated";
        return;
      }
      isLoading := true;
      errorMessage := "";
      listener := Some(Listener(currentUser.value));
    }

    /** The listener's handler: applies one snapshot (or error) to the list. */
    method ApplySnapshot(snapshot: Snapshot, today: CivilDate)
      modifies this
      ensures !isLoading && listener == old(listener)
      ensures snapshot.Failed? ==> errorMessage == snapshot.message && birthdays == old(birthdays)
      ensures snapshot.Missing? ==> birthdays == [] && errorMessage == old(errorMessage)
      ensures snapshot.Documents? ==>
                errorMessage == old(errorMessage) &&
                birthdays == ByNextBirthday(Parsed(snapshot.docs), today) &&
                (forall b :: multiset(birthdays)[b] == multiset(snapshot.docs)[Some(b)])
    {
      isLoading := false;
      match snapshot {
        case Failed(message) =>
          errorMessage := message;
        case Missing =>
          birthdays := [];
        case Documents(docs) =>
          birthdays := ByNextBirthday(Parsed(docs), today);
      }
    }

    /** Builds a record from month and day and stores it; returns the record written, if any. */
    method AddBirthday(name: string, month: int, day: int, notes: Option<string>,
                       currentUser: Option<string>, newId: string, createdAt: int,
                       storeError: Option<string>)
      returns (written: Option<BirthdayItem>)
      modifies this`errorMessage
      ensures currentUser == None ==> written == None && errorMessage == "User not authenticated"
      ensures currentUser != None && storeError == None ==>
                written == Some(BirthdayItem(newId, name, month, day, currentUser.value, notes, createdAt)) &&
                errorMessage == old(errorMessage)
      ensures currentUser != None && storeError != None ==>
                written == None && errorMessage == "Failed to add birthday: " + storeError.value
    {
      if currentUser == None {
        errorMessage := "User not authenticated";
        return None;
      }
      var item := BirthdayItem(newId, name, month, day, currentUser.value, notes, createdAt);
      if storeError == None {
        written := Some(item);
      } else {
        errorMessage := "Failed to add birthday: " + storeError.value;
        written := None;
      }
    }

    /** The date form of `AddBirthday`: forwards the date's month and day and nothing else of it. */
    method AddBirthdayOn(name: string, birthday: CivilDate, notes: Option<string>,
                         currentUser: Option<string>, newId: string, createdAt: int,
                         storeError: Option<string>)
      returns (written: Option<BirthdayItem>)
      modifies this`errorMessage
      ensures written == (if currentUser != None && storeError == None
                          then Some(FromDate(newId, name, birthday, currentUser.value, notes, createdAt))
                          else None)
      ensures currentUser == None ==> errorMessage == "User not authenticated"
      ensures currentUser != None && storeError == None ==> errorMessage == old(errorMessage)
      ensures currentUser != None && storeError != None ==>
                errorMessage == "Failed to add birthday: " + storeError.value
    {
      written := AddBirthday(name, birthday.month, birthday.day, notes, currentUser, newId, createdAt, storeError);
    }

    /** `upcomingBirthdays`: the records at most 90 days away, nearest first. */
    function UpcomingBirthdays(today: CivilDate): (r: seq<BirthdayItem>)
      reads this
      ensures forall i, j :: 0 <= i < j < |r| ==> DaysUntil(r[i], today) <= DaysUntil(r[j], today)
      ensures forall b :: multiset(r)[b] == if DaysUntil(b, today) <= ListWindow then multiset(birthdays)[b] else 0
    {
      Upcoming(birthdays, today, ListWindow)
    }

    /** `todaysBirthdays`: the records whose birthday is today, in list order. */
    function TodaysBirthdays(today: CivilDate): (r: seq<BirthdayItem>)
      reads this
      ensures forall b :: b in r <==> b in birthdays && DaysUntil(b, today) == 0
    {
      DueToday(birthdays, today)
    }

    /** Stops listening and empties the list. */
    method ClearBirthdays()
      modifies this
      ensures birthdays == [] && !isLoading && errorMessage == "" && listener == None
    {
      listener := None;
      birthdays := [];
      isLoading := false;
      errorMessage := "";
    }
  }
}
