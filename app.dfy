/**
 * The application state of `App`: the settings, the two text inputs, the event
 * list and the status message, with the capability from the notification
 * hook. Every call made on the capability is appended to `log`, and
 * `scheduled` is what the platform holds after those calls.
 */
module CalendarApp {
  import opened Optional
  import opened Capability
  import opened Scheduler
  import opened EventList

  const PermissionWarning: string := "Notifications permission not granted"

  class App {
    const hook: NotificationHook
    /** The locale time formatting of `fmtTime`, left uninterpreted. */
    const formatTime: int -> string
    /** The current status message of the snackbar ("" when none). */
    var snack: string
    var notifEnabled: bool
    var leadTime: LeadTime
    var dailySummary: bool
    var titleInput: string
    var minutesInput: string
    var events: seq<Event>
    /** Every call made on the capability, in order. */
    var log: seq<Call>
    /** The notifications the platform holds. */
    var scheduled: seq<Request>

    /** The initial state: notifications on, 10-minute lead, no summary, and the two sample events. */
    constructor (hook: NotificationHook, formatTime: int -> string, now: int, standupId: string, workBlockId: string, platformPending: seq<Request>)
      requires ValidTime(now) && ValidTime(now + 120 * MsPerMinute)
      ensures this.hook == hook && this.formatTime == formatTime
      ensures snack == "" && titleInput == "" && minutesInput == "30"
      ensures Settings() == Scheduler.Prefs(true, Ten, false)
      ensures events == [Event(standupId, "Team Standup", now + 45 * MsPerMinute),
                         Event(workBlockId, "Project Work Block", now + 120 * MsPerMinute)]
      ensures log == [] && scheduled == platformPending
    {
      this.hook := hook;
      this.formatTime := formatTime;
      snack := "";
      notifEnabled := true;
      leadTime := Ten;
      dailySummary := false;
      titleInput := "";
      minutesInput := "30";
      events := [Event(standupId, "Team Standup", now + 45 * MsPerMinute),
                 Event(workBlockId, "Project Work Block", now + 120 * MsPerMinute)];
      log := [];
      scheduled := platformPending;
    }

    function Settings(): Prefs
      reads this`notifEnabled, this`leadTime, this`dailySummary
    {
      Scheduler.Prefs(notifEnabled, leadTime, dailySummary)
    }

    /** Whether the hook's capability forwards to the platform (`isNative`). */
    function IsNative(): bool
      reads hook
    {
      hook.Api() == Native
    }

    /** One call on the capability: logged, and forwarded to the platform when native. */
    method Invoke(call: Call)
      modifies this`log, this`scheduled
      ensures log == old(log) + [call]
      ensures scheduled == Step(hook.Api(), old(scheduled), call)
    {
      log := log + [call];
      scheduled := Step(hook.Api(), scheduled, call);
    }

    /**
     * The permission effect: once ready, ask for the status, request permission
     * only if it is not granted, and warn only if that request fails too.
     */
    method CheckPermissions(platformStatus: PermissionStatus, platformReply: PermissionStatus)
      modifies this`log, this`scheduled, this`snack
      ensures !hook.ready ==> log == old(log) && snack == old(snack)
      ensures hook.ready ==> log == old(log) + PermissionFlow(hook.Api(), platformStatus, platformReply).calls
      ensures hook.ready ==> snack == if PermissionFlow(hook.Api(), platformStatus, platformReply).warned then PermissionWarning else old(snack)
      ensures scheduled == old(scheduled)
    {
      if !hook.ready {
        return;
      }
      Invoke(GetPermissions);
      var status := QueryPermission(hook.Api(), platformStatus);
      if status != Granted {
        Invoke(RequestPermissions);
        var req := RequestPermission(hook.Api(), platformReply);
        if req != Granted {
          snack := PermissionWarning;
        }
      }
    }

    /** `scheduleForEvent`: at most one schedule call, for a reminder still ahead of now. */
    method ScheduleForEvent(ev: Event, now: int)
      modifies this`log, this`scheduled
      ensures log == old(log) + Schedules(ToSeq(EventReminder(Settings(), now, formatTime, ev)))
      ensures scheduled == if IsNative() then old(scheduled) + ToSeq(EventReminder(Settings(), now, formatTime, ev)) else old(scheduled)
    {
      if !notifEnabled {
        return;
      }
      var minutesLead := LeadMinutes(leadTime);
      var fireAt := ev.whenMs - minutesLead * MsPerMinute;
      if fireAt <= now {
        return;
      }
      var request := ReminderRequest(ev, leadTime, formatTime);
      assert request.trigger == fireAt;
      Invoke(Schedule(request));
      assert Schedules([request]) == [Schedule(request)];
    }

    /** `clearAllScheduled`: cancel everything and say so. */
    method ClearAllScheduled()
      modifies this`log, this`scheduled, this`snack
      ensures log == old(log) + [CancelAll]
      ensures scheduled == if IsNative() then [] else old(scheduled)
      ensures snack == if IsNative() then "Cleared scheduled notifications" else "Cleared (web mock)"
    {
      Invoke(CancelAll);
      snack := if IsNative() then "Cleared scheduled notifications" else "Cleared (web mock)";
    }

    /** The per-event loop of `rescheduleAll`: one `scheduleForEvent` per event, in list order. */
    method ScheduleEachEvent(now: int)
      modifies this`log, this`scheduled
      ensures log == old(log) + Schedules(EventReminders(Settings(), now, formatTime, events))
      ensures scheduled == if IsNative() then old(scheduled) + EventReminders(Settings(), now, formatTime, events) else old(scheduled)
    {
      ghost var native, prefs, pending := IsNative(), Settings(), scheduled;
      var i := 0;
      while i < |events|
        invariant 0 <= i <= |events|
        invariant IsNative() == native && Settings() == prefs
        invariant log == old(log) + Schedules(EventReminders(prefs, now, formatTime, events[..i]))
        invariant scheduled == if native then pending + EventReminders(prefs, now, formatTime, events[..i]) else pending
      {
        ghost var before := EventReminders(prefs, now, formatTime, events[..i]);
        ghost var step := ToSeq(EventReminder(prefs, now, formatTime, events[i]));
        ScheduleForEvent(events[i], now);
        EventRemindersStep(prefs, now, formatTime, events, i);
        SchedulesAppend(before, step);
        AppendTwice(old(log), Schedules(before), Schedules(step));
        AppendTwice(pending, before, step);
        i := i + 1;
      }
      assert events[..i] == events;
    }

    /** The daily-summary step of `rescheduleAll`: the next 08:00 strictly after now, if enabled. */
    method ScheduleDailySummary(now: int)
      modifies this`log, this`scheduled
      ensures log == old(log) + Schedules(SummaryRequests(Settings(), now))
      ensures scheduled == if IsNative() then old(scheduled) + SummaryRequests(Settings(), now) else old(scheduled)
    {
      if dailySummary && notifEnabled {
        var at := TodayAtEight(now);
        if at <= now {
          at := at + MsPerDay;
        }
        var request := Request(Content(SummaryTitle, SummaryBody, None), at);
        assert request == DailySummary(now);
        Invoke(Schedule(request));
        assert Schedules([request]) == [Schedule(request)];
      } else {
        assert old(scheduled) + [] == old(scheduled);
      }
    }

    /** Everything `rescheduleAll` schedules after cancelling: the per-event loop, then the summary. */
    method ScheduleDesired(now: int)
      modifies this`log, this`scheduled
      ensures log == old(log) + Schedules(DesiredSchedule(Settings(), now, formatTime, events))
      ensures scheduled == if IsNative() then old(scheduled) + DesiredSchedule(Settings(), now, formatTime, events) else old(scheduled)
    {
      ghost var prefs, pending := Settings(), scheduled;
      ghost var reminders := EventReminders(prefs, now, formatTime, events);
      ghost var summary := SummaryRequests(prefs, now);
      ScheduleEachEvent(now);
      ScheduleDailySummary(now);
      SchedulesAppend(reminders, summary);
      AppendTwice(old(log), Schedules(reminders), Schedules(summary));
      AppendTwice(pending, reminders, summary);
    }

    /**
     * `rescheduleAll`: cancel everything, schedule each event's reminder in list
     * order, then the daily summary if enabled. The calls made are exactly
     * `RunCalls`; a native platform then holds exactly the desired schedule and
     * a simulated one is untouched (which is what replaying the calls gives, by
     * `RunReplay`).
     */
    method RescheduleAll(now: int)
      modifies this`log, this`scheduled, this`snack
      ensures log == old(log) + RunCalls(Settings(), now, formatTime, events)
      ensures scheduled == if IsNative() then DesiredSchedule(Settings(), now, formatTime, events) else old(scheduled)
      ensures snack == if IsNative() then "Reminders scheduled" else "Scheduled (web mock)"
    {
      ghost var prefs, evs := Settings(), events;
      ghost var desired := DesiredSchedule(prefs, now, formatTime, evs);
      ghost var issued := Schedules(desired);
      ClearAllScheduled();
      ScheduleDesired(now);
      AppendTwice(old(log), [CancelAll], issued);
      assert log == old(log) + RunCalls(prefs, now, formatTime, evs);
      assert [] + desired == desired;
      assert scheduled == if IsNative() then desired else old(scheduled);
      snack := if IsNative() then "Reminders scheduled" else "Scheduled (web mock)";
      assert Settings() == prefs;
      assert events == evs;
    }

    /** The reconciliation effect: a run whenever the hook is ready. */
    method ReconcileIfReady(now: int)
      modifies this`log, this`scheduled, this`snack
      ensures !hook.ready ==> log == old(log) && scheduled == old(scheduled) && snack == old(snack)
      ensures hook.ready ==> log == old(log) + RunCalls(Settings(), now, formatTime, events)
      ensures hook.ready ==> scheduled == if IsNative() then DesiredSchedule(Settings(), now, formatTime, events) else old(scheduled)
      ensures hook.ready ==> snack == if IsNative() then "Reminders scheduled" else "Scheduled (web mock)"
    {
      if hook.ready {
        RescheduleAll(now);
      }
    }

    /** The settings screen: the enable switch, the lead-time choice and the summary switch. */
    method SetPreferences(enabled: bool, lead: LeadTime, summary: bool)
      modifies this`notifEnabled, this`leadTime, this`dailySummary
      ensures Settings() == Scheduler.Prefs(enabled, lead, summary)
    {
      notifEnabled, leadTime, dailySummary := enabled, lead, summary;
    }

    /**
     * `addEvent`: build the event from the inputs and put it at the front of the
     * list, then clear the inputs and report; when `mkEvent` throws, nothing
     * changes.
     */
    method AddEvent(now: int, freshId: string) returns (r: Result<Event, AddError>)
      modifies this`events, this`titleInput, this`minutesInput, this`snack
      ensures r == NewEvent(freshId, old(titleInput), old(minutesInput), now)
      ensures r.Success? ==> events == [r.value] + old(events)
      ensures r.Success? ==> titleInput == "" && minutesInput == "30"
      ensures r.Success? ==> snack == "Event added for " + formatTime(r.value.whenMs) + " " + (if IsNative() then "" else "(web mock)")
      ensures r.Failure? ==> events == old(events) && titleInput == old(titleInput) && minutesInput == old(minutesInput) && snack == old(snack)
    {
      var mins := MinutesFromInput(minutesInput);
      if mins.None? {
        return Failure(InvalidTimeValue);
      }
      var title := TitleFromInput(titleInput);
      r := MkEvent(freshId, title, mins.value, now);
      if r.Failure? {
        return;
      }
      var ev := r.value;
      events := [ev] + events;
      titleInput := "";
      minutesInput := "30";
      snack := "Event added for " + formatTime(ev.whenMs) + " " + (if IsNative() then "" else "(web mock)");
    }

    /** `deleteEvent`: drop every event with this identifier. */
    method DeleteEvent(id: string)
      modifies this`events
      ensures events == Without(old(events), id)
    {
      events := Without(events, id);
    }

    /** The list the calendar shows: the events in time order, the list itself untouched. */
    function DisplayList(): (shown: seq<Event>)
      reads this
      ensures SortedByTime(shown)
      ensures multiset(shown) == multiset(events)
    {
      SortByTimeSpec(events);
      SortByTime(events)
    }
  }
}
