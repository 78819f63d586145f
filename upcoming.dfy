/**
 * The upcoming-birthdays view model: a 30-day upcoming view and a today
 * view derived from the birthday list each time it changes, and the
 * planner that turns the upcoming view into local notification requests.
 */
module UpcomingBirthdays {
  import opened Calendar
  import opened Sequences
  import opened BirthdayItems
  import opened BirthdayList

  /** The window of this view model's upcoming view. */
  const UpcomingWindow: int := 30

  /** At most this many notifications are scheduled per run. */
  const MaxNotifications: nat := 10

  /** `UNCalendarNotificationTrigger(dateMatching:repeats:)` with year, month, day, hour and minute. */
  datatype Trigger = Trigger(date: CivilDate, hour: int, minute: int, repeats: bool)

  /** A `UNNotificationRequest` with its content. */
  datatype NotificationRequest = NotificationRequest(
    identifier: string,
    title: string,
    body: string,
    badge: int,
    trigger: Trigger)

  /** The identifier of the reminder for the record with id `id`. */
  function ReminderIdentifier(id: string): string {
    "birthday_" + id
  }

  /** Different records get different identifiers. */
  lemma ReminderIdentifierInjective(a: string, b: string)
    requires ReminderIdentifier(a) == ReminderIdentifier(b)
    ensures a == b
  {
    assert a == ReminderIdentifier(a)[9..];
    assert b == ReminderIdentifier(b)[9..];
  }

  /**
   * `scheduleNotification(for:)`'s request: fires once at the start (00:00)
   * of the record's next birthday.
   */
  function ReminderFor(b: BirthdayItem, today: CivilDate): (r: NotificationRequest)
    ensures r.identifier == ReminderIdentifier(b.id)
    ensures r.title == "Birthday Reminder"
    ensures |r.body| > 5 + |b.name| && r.body[5..5 + |b.name|] == b.name
    ensures r.trigger.hour == 0 && r.trigger.minute == 0 && !r.trigger.repeats
  {
    NotificationRequest(
      ReminderIdentifier(b.id),
      "Birthday Reminder",
      "It's " + b.name + "'s birthday today! \U{1F389}",
      1,
      Trigger(NextBirthday(b, today), 0, 0, false))
  }

  /** The reminder fires on the record's next birthday, `DaysUntil` days from today. */
  lemma ReminderFiresOnNextBirthday(b: BirthdayItem, today: CivilDate)
    ensures var date := ReminderFor(b, today).trigger.date;
            ValidDate(date) && DateNumber(date) == DateNumber(today) + DaysUntil(b, today)
  {
  }

  /** The requests one scheduling run issues, in order: one per record of the first ten. */
  function Plan(upcoming: seq<BirthdayItem>, today: CivilDate): (r: seq<NotificationRequest>)
    ensures |r| == if |upcoming| < MaxNotifications then |upcoming| else MaxNotifications
    ensures forall i :: 0 <= i < |r| ==> r[i] == ReminderFor(upcoming[i], today)
  {
    var batch := Prefix(upcoming, MaxNotifications);
    seq(|batch|, i requires 0 <= i < |batch| => ReminderFor(batch[i], today))
  }

  /** The pending requests after adding `requests` one by one to an empty centre; a later one replaces an earlier one with its identifier. */
  function PendingAfter(requests: seq<NotificationRequest>): map<string, NotificationRequest> {
    if requests == [] then map[]
    else
      var last := requests[|requests| - 1];
      PendingAfter(requests[..|requests| - 1])[last.identifier := last]
  }

  /** Requests with distinct identifiers are all pending afterwards, each under its own identifier, and nothing else is. */
  lemma {:induction false} PendingAfterDistinct(requests: seq<NotificationRequest>)
    requires forall i, j :: 0 <= i < j < |requests| ==> requests[i].identifier != requests[j].identifier
    ensures forall k :: k in PendingAfter(requests) <==> exists i :: 0 <= i < |requests| && requests[i].identifier == k
    ensures forall i :: 0 <= i < |requests| ==> PendingAfter(requests)[requests[i].identifier] == requests[i]
  {
    if requests != [] {
      var n := |requests| - 1;
      var earlier, last := requests[..n], requests[n];
      PendingAfterDistinct(earlier);
      var m := PendingAfter(requests);
      assert m == PendingAfter(earlier)[last.identifier := last];
      forall k ensures k in m <==> exists i :: 0 <= i < |requests| && requests[i].identifier == k {
        if k in m && k != last.identifier {
          var i :| 0 <= i < n && earlier[i].identifier == k;
          assert requests[i].identifier == k;
        }
      }
      forall i | 0 <= i < |requests| ensures m[requests[i].identifier] == requests[i] {
        if i < n {
          assert earlier[i] == requests[i];
        }
      }
    }
  }

  /** Records with distinct ids get distinct reminder identifiers. */
  lemma PlanIdentifiersDistinct(upcoming: seq<BirthdayItem>, today: CivilDate)
    requires forall i, j :: 0 <= i < j < |upcoming| ==> upcoming[i].id != upcoming[j].id
    ensures forall i, j :: 0 <= i < j < |Plan(upcoming, today)| ==>
              Plan(upcoming, today)[i].identifier != Plan(upcoming, today)[j].identifier
  {
    var r := Plan(upcoming, today);
    forall i, j | 0 <= i < j < |r| ensures r[i].identifier != r[j].identifier {
      if r[i].identifier == r[j].identifier {
        ReminderIdentifierInjective(upcoming[i].id, upcoming[j].id);
      }
    }
  }

  /** Every reminder of a run over the 30-day view fires on a day 0..30 days from today. */
  lemma PlannedWithinWindow(items: seq<BirthdayItem>, today: CivilDate)
    requires forall b :: b in items ==> InRange(b)
    requires ValidDate(today)
    ensures forall r :: r in Plan(Upcoming(items, today, UpcomingWindow), today) ==>
              DateNumber(today) <= DateNumber(r.trigger.date) <= DateNumber(today) + UpcomingWindow
  {
    var u := Upcoming(items, today, UpcomingWindow);
    var p := Plan(u, today);
    forall r | r in p
      ensures DateNumber(today) <= DateNumber(r.trigger.date) <= DateNumber(today) + UpcomingWindow
    {
      var i :| 0 <= i < |p| && p[i] == r;
      assert u[i] in multiset(u);
      assert multiset(u)[u[i]] > 0;
      assert u[i] in multiset(items);
      DaysUntilBounds(u[i], today);
      ReminderFiresOnNextBirthday(u[i], today);
    }
  }

  /** `UNUserNotificationCenter`: the pending requests by identifier. */
  class NotificationCenter {
    var pending: map<string, NotificationRequest>

    constructor ()
      ensures pending == map[]
    {
      pending := map[];
    }

    method RemoveAllPendingNotificationRequests()
      modifies this
      ensures pending == map[]
    {
      pending := map[];
    }

    /** Adding a request replaces any pending request with the same identifier. */
    method Add(request: NotificationRequest)
      modifies this
      ensures pending == old(pending)[request.identifier := request]
    {
      pending := pending[request.identifier := request];
    }
  }

  class UpcomingBirthdayViewModel {
    var upcomingBirthdays: seq<BirthdayItem>
    var todaysBirthdays: seq<BirthdayItem>
    var isLoading: bool

    /** Subscribing delivers the list's current values at once. */
    constructor (source: BirthdayItemViewModel, today: CivilDate)
      ensures upcomingBirthdays == Upcoming(source.birthdays, today, UpcomingWindow)
      ensures todaysBirthdays == DueToday(source.birthdays, today)
      ensures isLoading == source.isLoading
    {
      upcomingBirthdays := Upcoming(source.birthdays, today, UpcomingWindow);
      todaysBirthdays := DueToday(source.birthdays, today);
      isLoading := source.isLoading;
    }

    /** The two `map` derivations, run on each new value of the list. */
    method BirthdaysChanged(birthdays: seq<BirthdayItem>, today: CivilDate)
      modifies this
      ensures upcomingBirthdays == Upcoming(birthdays, today, UpcomingWindow)
      ensures todaysBirthdays == DueToday(birthdays, today)
      ensures isLoading == old(isLoading)
    {
      upcomingBirthdays := Upcoming(birthdays, today, UpcomingWindow);
      todaysBirthdays := DueToday(birthdays, today);
    }

    method LoadingChanged(loading: bool)
      modifies this
      ensures isLoading == loading
      ensures upcomingBirthdays == old(upcomingBirthdays) && todaysBirthdays == old(todaysBirthdays)
    {
      isLoading := loading;
    }

    /** Replaces every pending request by one reminder for each of the first ten upcoming records. */
    method ScheduleBirthdayNotifications(center: NotificationCenter, today: CivilDate)
      modifies center
      ensures center.pending == PendingAfter(Plan(upcomingBirthdays, today))
    {
      center.RemoveAllPendingNotificationRequests();
      var batch := Prefix(upcomingBirthdays, MaxNotifications);
      ghost var plan := Plan(upcomingBirthdays, today);
      var i := 0;
      while i < |batch|
        invariant 0 <= i <= |batch| == |plan|
        invariant center.pending == PendingAfter(plan[..i])
      {
        ScheduleNotification(batch[i], center, today);
        assert plan[i] == ReminderFor(batch[i], today);
        assert plan[..i + 1][..i] == plan[..i];
        i := i + 1;
      }
      assert plan[..i] == plan;
    }

    method ScheduleNotification(birthday: BirthdayItem, center: NotificationCenter, today: CivilDate)
      modifies center
      ensures center.pending == old(center.pending)[ReminderIdentifier(birthday.id) := ReminderFor(birthday, today)]
    {
      var trigger := Trigger(NextBirthday(birthday, today), 0, 0, false);
      var request := NotificationRequest(
        ReminderIdentifier(birthday.id),
        "Birthday Reminder",
        "It's " + birthday.name + "'s birthday today! \U{1F389}",
        1,
        trigger);
      center.Add(request);
    }
  }
}
