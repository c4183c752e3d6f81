/**
 * The reminder policy of `scheduleForEvent` and `rescheduleAll`: which
 * requests a reconciliation run issues for the preferences, the event list and
 * the current time, and in which order. Times are milliseconds of the local
 * clock; a day is a fixed 86 400 000 ms.
 */
module Scheduler {
  import opened Optional
  import opened JsText
  import opened Capability

  const MsPerMinute: int := 60_000
  const MsPerHour: int := 3_600_000
  const MsPerDay: int := 86_400_000
  /** 08:00:00.000 as milliseconds since local midnight. */
  const SummaryTimeOfDay: int := 28_800_000

  const ReminderTitle: string := "Upcoming event"
  const SummaryTitle: string := "Daily Summary"
  const SummaryBody: string := "Your schedule and tasks for today are ready."

  /** An event: its identifier, display title and the time it happens (`whenISO`). */
  datatype Event = Event(id: string, title: string, whenMs: int)

  /** The three lead times offered by the settings screen. */
  datatype LeadTime = Five | Ten | Thirty

  function Minutes(lead: LeadTime): nat
  {
    match lead
    case Five => 5
    case Ten => 10
    case Thirty => 30
  }

  /** The lead time as the string the settings keep ("5", "10" or "30"). */
  function Label(lead: LeadTime): string
  {
    match lead
    case Five => "5"
    case Ten => "10"
    case Thirty => "30"
  }

  /** The lead-time string is the decimal form of its minutes, and parses back to them. */
  lemma LabelParses(lead: LeadTime)
    ensures Label(lead) == Decimal(Minutes(lead))
    ensures ParseInt(Label(lead)) == Some(Minutes(lead))
  {
    match lead {
      case Five => assert Decimal(5) == "5";
      case Ten => assert Decimal(10) == Decimal(1) + "0" == "10";
      case Thirty => assert Decimal(30) == Decimal(3) + "0" == "30";
    }
    ParseDecimal(Minutes(lead), []);
    assert Label(lead) + [] == Label(lead);
  }

  /** `parseInt(leadTime, 10)` on the stored lead-time string. */
  function LeadMinutes(lead: LeadTime): (m: int)
    ensures m == Minutes(lead)
  {
    LabelParses(lead);
    ParseInt(Label(lead)).value
  }

  datatype Prefs = Prefs(enabled: bool, leadTime: LeadTime, dailySummary: bool)

  /** When an event's reminder is due: the event time less the lead time. */
  function FireTime(ev: Event, lead: LeadTime): int
  {
    ev.whenMs - Minutes(lead) * MsPerMinute
  }

  /** The reminder text: title, formatted event time and the lead-time note. */
  function ReminderBody(ev: Event, lead: LeadTime, formatTime: int -> string): string
  {
    ev.title + " at " + formatTime(ev.whenMs) + " (" + Label(lead) + " min reminder)"
  }

  /** The reminder request for an event: "Upcoming event", the reminder text, the event's id, at the fire time. */
  function ReminderRequest(ev: Event, lead: LeadTime, formatTime: int -> string): Request
  {
    Request(Content(ReminderTitle, ReminderBody(ev, lead, formatTime), Some(ev.id)), FireTime(ev, lead))
  }

  /** `scheduleForEvent`: the request issued for one event, if any. */
  function EventReminder(prefs: Prefs, now: int, formatTime: int -> string, ev: Event): Option<Request>
  {
    if !prefs.enabled then None
    else if FireTime(ev, prefs.leadTime) <= now then None
    else Some(ReminderRequest(ev, prefs.leadTime, formatTime))
  }

  /**
   * A reminder is issued exactly when notifications are enabled and the fire
   * time is strictly after now; it fires lead-time minutes before the event,
   * is titled "Upcoming event", names the event, states the lead time and
   * carries the event's id.
   */
  lemma EventReminderSpec(prefs: Prefs, now: int, formatTime: int -> string, ev: Event)
    ensures var r := EventReminder(prefs, now, formatTime, ev);
      && (r.Some? <==> prefs.enabled && ev.whenMs - Minutes(prefs.leadTime) * 60000 > now)
      && (r.Some? ==>
            && r.value.trigger == ev.whenMs - Minutes(prefs.leadTime) * 60000
            && r.value.trigger > now
            && r.value.content.title == "Upcoming event"
            && r.value.content.eventId == Some(ev.id)
            && ev.title <= r.value.content.body
            && var tail := " (" + Label(prefs.leadTime) + " min reminder)";
               r.value.content.body[|r.value.content.body| - |tail|..] == tail)
  {
    if EventReminder(prefs, now, formatTime, ev).Some? {
      var body := ReminderBody(ev, prefs.leadTime, formatTime);
      var tail := " (" + Label(prefs.leadTime) + " min reminder)";
      assert body == ev.title + " at " + formatTime(ev.whenMs) + tail;
    }
  }

  /** The requests of the per-event loop, in list order. */
  function EventReminders(prefs: Prefs, now: int, formatTime: int -> string, events: seq<Event>): seq<Request>
  {
    if events == [] then []
    else
      EventReminders(prefs, now, formatTime, events[..|events| - 1])
      + ToSeq(EventReminder(prefs, now, formatTime, events[|events| - 1]))
  }

  /** One more turn of the per-event loop adds the reminder of the next event, if any. */
  lemma EventRemindersStep(prefs: Prefs, now: int, formatTime: int -> string, events: seq<Event>, i: nat)
    requires i < |events|
    ensures EventReminders(prefs, now, formatTime, events[..i + 1])
      == EventReminders(prefs, now, formatTime, events[..i]) + ToSeq(EventReminder(prefs, now, formatTime, events[i]))
  {
    assert events[..i + 1][..i] == events[..i];
  }

  /** The events whose reminder is due after now, in list order. */
  function DueEvents(prefs: Prefs, now: int, events: seq<Event>): (due: seq<Event>)
  {
    if events == [] then []
    else if prefs.enabled && FireTime(events[0], prefs.leadTime) > now then [events[0]] + DueEvents(prefs, now, events[1..])
    else DueEvents(prefs, now, events[1..])
  }

  lemma {:induction false} DueEventsAppend(prefs: Prefs, now: int, xs: seq<Event>, ys: seq<Event>)
    ensures DueEvents(prefs, now, xs + ys) == DueEvents(prefs, now, xs) + DueEvents(prefs, now, ys)
  {
    if xs == [] {
      assert xs + ys == ys;
    } else {
      assert (xs + ys)[1..] == xs[1..] + ys;
      DueEventsAppend(prefs, now, xs[1..], ys);
    }
  }

  /**
   * The per-event loop issues one reminder for each due event and none for the
   * others, in the order of the list: its requests are the due events, each
   * turned into its reminder.
   */
  lemma {:induction false} EventRemindersAreDueEvents(prefs: Prefs, now: int, formatTime: int -> string, events: seq<Event>)
    ensures var due := DueEvents(prefs, now, events);
      var rs := EventReminders(prefs, now, formatTime, events);
      && |rs| == |due| <= |events|
      && forall k :: 0 <= k < |due| ==> Some(rs[k]) == EventReminder(prefs, now, formatTime, due[k])
  {
    if events != [] {
      var init, last := events[..|events| - 1], events[|events| - 1];
      EventRemindersAreDueEvents(prefs, now, formatTime, init);
      assert events == init + [last];
      DueEventsAppend(prefs, now, init, [last]);
      assert [last][1..] == [];
    }
  }

  /** Every reminder belongs to an event of the list and fires strictly after now. */
  lemma {:induction false} EventRemindersFromEvents(prefs: Prefs, now: int, formatTime: int -> string, events: seq<Event>)
    ensures forall r :: r in EventReminders(prefs, now, formatTime, events) ==>
      && r.trigger > now
      && r.content.title == ReminderTitle
      && exists ev :: ev in events && r == ReminderRequest(ev, prefs.leadTime, formatTime)
  {
    if events != [] {
      var init, last := events[..|events| - 1], events[|events| - 1];
      EventRemindersFromEvents(prefs, now, formatTime, init);
      forall r | r in EventReminders(prefs, now, formatTime, events)
        ensures exists ev :: ev in events && r == ReminderRequest(ev, prefs.leadTime, formatTime)
      {
        if r in EventReminders(prefs, now, formatTime, init) {
          var ev :| ev in init && r == ReminderRequest(ev, prefs.leadTime, formatTime);
          assert ev in events;
        } else {
          assert last in events;
        }
      }
    }
  }

  /** Number of requests that refer to event `id`. */
  function CountFor(rs: seq<Request>, id: string): nat
  {
    if rs == [] then 0
    else CountFor(rs[..|rs| - 1], id) + (if rs[|rs| - 1].content.eventId == Some(id) then 1 else 0)
  }

  lemma {:induction false} CountForAppend(xs: seq<Request>, ys: seq<Request>, id: string)
    ensures CountFor(xs + ys, id) == CountFor(xs, id) + CountFor(ys, id)
  {
    if ys == [] {
      assert xs + ys == xs;
    } else {
      assert (xs + ys)[..|xs + ys| - 1] == xs + ys[..|ys| - 1];
      CountForAppend(xs, ys[..|ys| - 1], id);
    }
  }

  /**
   * When identifiers are unique, the per-event loop issues exactly one
   * request for event `events[i]` if its reminder is due, and none otherwise.
   */
  lemma {:induction false} OneReminderPerEvent(prefs: Prefs, now: int, formatTime: int -> string, events: seq<Event>, i: nat)
    requires i < |events|
    requires forall j :: 0 <= j < |events| && j != i ==> events[j].id != events[i].id
    ensures CountFor(EventReminders(prefs, now, formatTime, events), events[i].id)
      == if prefs.enabled && FireTime(events[i], prefs.leadTime) > now then 1 else 0
  {
    var id := events[i].id;
    var init, last := events[..|events| - 1], events[|events| - 1];
    var rs := EventReminders(prefs, now, formatTime, events);
    var lastRs := ToSeq(EventReminder(prefs, now, formatTime, last));
    CountForAppend(EventReminders(prefs, now, formatTime, init), lastRs, id);
    assert lastRs == [] || lastRs[..0] == [];
    if i == |events| - 1 {
      NoReminderFor(prefs, now, formatTime, init, id);
    } else {
      OneReminderPerEvent(prefs, now, formatTime, init, i);
    }
  }

  /** No request refers to an identifier that no event of the list has. */
  lemma {:induction false} NoReminderFor(prefs: Prefs, now: int, formatTime: int -> string, events: seq<Event>, id: string)
    requires forall j :: 0 <= j < |events| ==> events[j].id != id
    ensures CountFor(EventReminders(prefs, now, formatTime, events), id) == 0
  {
    if events != [] {
      var init, last := events[..|events| - 1], events[|events| - 1];
      var lastRs := ToSeq(EventReminder(prefs, now, formatTime, last));
      CountForAppend(EventReminders(prefs, now, formatTime, init), lastRs, id);
      assert lastRs == [] || lastRs[..0] == [];
      NoReminderFor(prefs, now, formatTime, init, id);
    }
  }

  /** 08:00 today, as the `setHours(8, 0, 0, 0)` of the current local time. */
  function TodayAtEight(now: int): int
  {
    now - now % MsPerDay + SummaryTimeOfDay
  }

  /** The daily-summary fire time: 08:00 today if that is still ahead, else 08:00 tomorrow. */
  function NextSummaryTime(now: int): int
  {
    var at := TodayAtEight(now);
    if at <= now then at + MsPerDay else at
  }

  /**
   * The daily summary fires at the first 08:00 strictly after now: it is an
   * 08:00, it is after now, no 08:00 lies between now and it, and so it is at
   * most a day away.
   */
  lemma NextSummaryTimeSpec(now: int)
    ensures var t := NextSummaryTime(now);
      && t % MsPerDay == SummaryTimeOfDay
      && now < t <= now + MsPerDay
      && forall u :: now < u && u % MsPerDay == SummaryTimeOfDay ==> t <= u
  {
    var t := NextSummaryTime(now);
    var d := now / MsPerDay;
    assert now == d * MsPerDay + now % MsPerDay;
    assert t == d * MsPerDay + SummaryTimeOfDay || t == (d + 1) * MsPerDay + SummaryTimeOfDay;
    forall u | now < u && u % MsPerDay == SummaryTimeOfDay
      ensures t <= u
    {
      var k := u / MsPerDay;
      assert u == k * MsPerDay + SummaryTimeOfDay;
      if k == d {
        assert t == d * MsPerDay + SummaryTimeOfDay;
      }
    }
  }

  /** At 07:00 the summary is due at 08:00 the same day; at 09:00 at 08:00 the next day. */
  lemma SummaryTodayOrTomorrow(day: int)
    ensures NextSummaryTime(day * MsPerDay + 7 * MsPerHour) == day * MsPerDay + SummaryTimeOfDay
    ensures NextSummaryTime(day * MsPerDay + 9 * MsPerHour) == (day + 1) * MsPerDay + SummaryTimeOfDay
  {
    var seven := day * MsPerDay + 7 * MsPerHour;
    var nine := day * MsPerDay + 9 * MsPerHour;
    assert seven / MsPerDay == day && seven % MsPerDay == 7 * MsPerHour;
    assert nine / MsPerDay == day && nine % MsPerDay == 9 * MsPerHour;
  }

  /** The daily-summary request: fixed title and body, no event. */
  function DailySummary(now: int): Request
  {
    Request(Content(SummaryTitle, SummaryBody, None), NextSummaryTime(now))
  }

  /** The daily-summary part of a run: the summary when it is asked for and notifications are enabled. */
  function SummaryRequests(prefs: Prefs, now: int): seq<Request>
  {
    if prefs.dailySummary && prefs.enabled then [DailySummary(now)] else []
  }

  /** Every request a run issues after cancel-all: the per-event reminders, then the daily summary if asked for. */
  function DesiredSchedule(prefs: Prefs, now: int, formatTime: int -> string, events: seq<Event>): seq<Request>
  {
    EventReminders(prefs, now, formatTime, events) + SummaryRequests(prefs, now)
  }

  /** The calls of one `rescheduleAll` run, in order. */
  function RunCalls(prefs: Prefs, now: int, formatTime: int -> string, events: seq<Event>): seq<Call>
  {
    [CancelAll] + Schedules(DesiredSchedule(prefs, now, formatTime, events))
  }

  /** With notifications disabled a run only cancels: no reminder, no summary. */
  lemma DisabledOnlyCancels(prefs: Prefs, now: int, formatTime: int -> string, events: seq<Event>)
    requires !prefs.enabled
    ensures DesiredSchedule(prefs, now, formatTime, events) == []
    ensures RunCalls(prefs, now, formatTime, events) == [CancelAll]
  {
    EventRemindersAreDueEvents(prefs, now, formatTime, events);
    DueEventsDisabled(prefs, now, events);
  }

  lemma {:induction false} DueEventsDisabled(prefs: Prefs, now: int, events: seq<Event>)
    requires !prefs.enabled
    ensures DueEvents(prefs, now, events) == []
  {
    if events != [] {
      DueEventsDisabled(prefs, now, events[1..]);
    }
  }

  /**
   * The shape of a run: cancel-all first and only there, then schedule calls
   * only, at most one per event plus the summary, all firing after now; the
   * summary, when asked for, is the last call.
   */
  lemma RunCallsOrder(prefs: Prefs, now: int, formatTime: int -> string, events: seq<Event>)
    ensures var cs := RunCalls(prefs, now, formatTime, events);
      && cs[0] == CancelAll
      && 1 <= |cs| <= |events| + 2
      && (forall k :: 1 <= k < |cs| ==> cs[k].Schedule? && cs[k].request.trigger > now)
      && (prefs.enabled && prefs.dailySummary ==> cs[|cs| - 1] == Schedule(DailySummary(now)))
  {
    var rs := EventReminders(prefs, now, formatTime, events);
    var ds := DesiredSchedule(prefs, now, formatTime, events);
    EventRemindersAreDueEvents(prefs, now, formatTime, events);
    EventRemindersFromEvents(prefs, now, formatTime, events);
    NextSummaryTimeSpec(now);
    forall k | 0 <= k < |ds| ensures ds[k].trigger > now {
      if k < |rs| { assert ds[k] == rs[k] && rs[k] in rs; }
    }
    forall k | 0 <= k < |ds| ensures Schedules(ds)[k] == Schedule(ds[k]) {
      SchedulesAt(ds, k);
    }
  }

  /**
   * A run leaves the platform holding exactly the desired schedule, whatever it
   * held and whatever was called before: running twice in a row ends where
   * running once does.
   */
  lemma RunConverges(prefs: Prefs, now: int, formatTime: int -> string, events: seq<Event>, pending: seq<Request>, before: seq<Call>)
    ensures Replay(Native, pending, before + RunCalls(prefs, now, formatTime, events)) == DesiredSchedule(prefs, now, formatTime, events)
    ensures var run := RunCalls(prefs, now, formatTime, events);
      Replay(Native, pending, before + run + run) == Replay(Native, [], run)
  {
    var run := RunCalls(prefs, now, formatTime, events);
    var ds := DesiredSchedule(prefs, now, formatTime, events);
    ClearThenScheduleConverges(pending, before, ds);
    ClearThenScheduleConverges(pending, before + run, ds);
    ClearThenScheduleConverges([], [], ds);
    assert [] + run == run;
  }

  /** After a run a native platform holds exactly the desired schedule; a simulated one holds what it held. */
  lemma RunReplay(cap: Capability, pending: seq<Request>, prefs: Prefs, now: int, formatTime: int -> string, events: seq<Event>)
    ensures Replay(cap, pending, RunCalls(prefs, now, formatTime, events))
      == if cap == Native then DesiredSchedule(prefs, now, formatTime, events) else pending
  {
    ClearThenSchedule(cap, pending, DesiredSchedule(prefs, now, formatTime, events));
  }

  /** The first sample event, "Team Standup" in 45 minutes, with the default 10-minute lead fires 35 minutes from now. */
  lemma StandupExample(now: int, id: string, formatTime: int -> string)
    ensures var ev := Event(id, "Team Standup", now + 45 * MsPerMinute);
      var prefs := Prefs(true, Ten, false);
      && DesiredSchedule(prefs, now, formatTime, [ev]) == EventReminders(prefs, now, formatTime, [ev])
      && |DesiredSchedule(prefs, now, formatTime, [ev])| == 1
      && DesiredSchedule(prefs, now, formatTime, [ev])[0].trigger == now + 35 * MsPerMinute
  {
    var ev := Event(id, "Team Standup", now + 45 * MsPerMinute);
    var prefs := Prefs(true, Ten, false);
    assert [ev][..0] == [];
  }
}
