# Reminder scheduling of the calendar app

This project models the reminder-scheduling core of the calendar and
notification-settings app in `App.js`, and proves properties of that model.

The core is:

- **The notification capability of `useNotifications`.** On the web, or while
  the `expo-notifications` module is not held, every call is answered by a
  simulated stand-in: permissions are "granted", scheduling returns nothing and
  cancel-all does nothing. Once the module is held, calls are forwarded to the
  platform.
- **The permission effect.** Once the hook is ready, the app asks for the
  permission status. It requests permission only when the status is not
  "granted", and it warns only when that request fails too.
- **`scheduleForEvent`.** One reminder per event, fired lead-time minutes
  before the event, and only when that moment is strictly after now.
- **`rescheduleAll`.** A reconciliation run that cancels everything, walks the
  event list in order, and then adds the daily summary at the next 08:00.
- **The event list.** `mkEvent` and `addEvent` build an event from the two text
  inputs and put it at the front of the list. `deleteEvent` filters events out
  by identifier. The list view shows a copy of the list sorted by time.

Time is an integer number of milliseconds on the local clock, and a day is a
fixed 86 400 000 ms. The current time, the random identifiers, the platform's
answers to permission queries and the outcome of loading the module are all
parameters. `fmtTime` is an uninterpreted function `formatTime: int -> string`.

Files, one module each:

| file | module | contents |
|---|---|---|
| `optional.dfy` | `Optional` | `Option` (JavaScript's `NaN`/`null`) and `Result` (a thrown error) |
| `js_text.dfy` | `JsText` | `String.prototype.trim`, `parseInt(s, 10)`, and the decimal rendering that `parseInt` inverts |
| `capability.dfy` | `Capability` | the simulated and native capability, the calls on it and their effect on the platform's queue, the permission flow, and the `useNotifications` hook as a class |
| `scheduler.dfy` | `Scheduler` | events, lead times, preferences, the per-event reminder rule, the daily-summary time, and the calls of one run |
| `events.dfy` | `EventList` | the minutes and title inputs, `mkEvent`, deletion by identifier, and the time-sorted copy |
| `app.dfy` | `CalendarApp` | class `App`: the component's state, the log of capability calls, the platform's queue, and the event handlers as methods |

The `App` class keeps every call made on the capability in `log`. It keeps the
notifications the platform holds in `scheduled`. Each method states the
calls it makes and the new queue in terms of the pure functions of
`Scheduler`. `RescheduleAll`, for example, logs exactly
`RunCalls(prefs, now, formatTime, events)`. Afterwards a native platform holds
exactly `DesiredSchedule(...)`, and a simulated one is untouched. The lemmas
about `RunCalls` and `DesiredSchedule` then state the order of the calls, the
at-most-one-reminder-per-event rule, the daily-summary time and convergence.

Two behaviours of the code are worth stating plainly, and the model keeps both:

- **Module load.** A failure in the handler or channel set-up still leaves the
  capability native, because `modRef.current` is set at `App.js:21`, before
  that set-up runs. `NotificationHook.Load` models this.
- **Disabled run message.** A run with notifications disabled still ends with
  "Reminders scheduled" or "Scheduled (web mock)" (`App.js:138`).
  `App.RescheduleAll` models this.

## Model

| member | source | states |
|---|---|---|
| `JsText.Trim` | App.js:147 | the trimmed title has no white space at either end, is no longer than the input, and is empty exactly when the input is all white space |
| `JsText.TrimSplits` | App.js:147 | trim only removes white space: the input is white space, then the trimmed text, then white space |
| `JsText.TrimIdempotent` | App.js:147 | trimming twice is trimming once |
| `JsText.DecimalValue` | App.js:110 | the digits of a rendered number have that number as their value |
| `JsText.ParseDecimal` | App.js:146 | `parseInt` reads back a rendered non-negative number, even when non-digit text follows it |
| `JsText.ParseNegativeDecimal` | App.js:146 | `parseInt` of a minus sign followed by a rendered number gives its negation |
| `Capability.Schedules` | App.js:127 | a run of schedule calls has one call per request |
| `Capability.SchedulesAppend` | App.js:125-137 | the schedule calls for two request lists in turn are the calls for their concatenation |
| `Capability.SchedulesAt` | App.js:127 | the k-th schedule call schedules the k-th request |
| `Capability.ReplayAppend` | App.js:60-67 | the platform's queue after two call sequences in turn is its queue after their concatenation |
| `Capability.SimulatedIsInert` | App.js:51-58 | no sequence of calls on the simulated capability changes anything |
| `Capability.ReplaySchedules` | App.js:65 | on the native platform, schedule calls append exactly their requests, in order |
| `Capability.ClearThenScheduleConverges` | App.js:125-137 | after cancel-all and schedule calls, the native platform holds exactly the scheduled requests, whatever it held and whatever was called before |
| `Capability.ClearThenSchedule` | App.js:120-137 | cancel-all then schedule calls: a native platform holds exactly those requests, a simulated one what it held |
| `Capability.PermissionFlowSpec` | App.js:86-95 | the calls are exactly the status query, followed by the permission request exactly when the native status is not "granted"; the warning is shown exactly when the request is refused too |
| `Capability.SimulatedNeverWarns` | App.js:51-58 | with the simulated capability the flow only queries: no request, no warning |
| `Capability.NotificationHook.constructor` | App.js:11-12 | the hook starts with no module and is ready at once only on the web; its capability is simulated |
| `Capability.NotificationHook.Load` | App.js:14-48 | on the web nothing changes; elsewhere the hook becomes ready in every outcome, and the capability is native exactly when the import resolved, even when the handler or channel set-up then failed |
| `Scheduler.LabelParses` | App.js:110 | each stored lead-time string is the decimal form of its minutes and `parseInt` reads it back |
| `Scheduler.LeadMinutes` | App.js:110 | `parseInt(leadTime, 10)` is the lead time in minutes |
| `Scheduler.EventReminderSpec` | App.js:107-118 | a reminder is issued exactly when notifications are enabled and the event time less the lead time is strictly after now; it fires at that time, is titled "Upcoming event", starts its body with the event title, ends it with "(lead min reminder)" and carries the event's id |
| `Scheduler.EventRemindersStep` | App.js:127 | helper for the loop invariant: one more turn of the per-event loop adds the next event's reminder, if any |
| `Scheduler.EventRemindersAreDueEvents` | App.js:127 | the loop issues, in list order, one reminder for each event whose reminder is due and none for the others |
| `Scheduler.EventRemindersFromEvents` | App.js:113-116 | every request fires strictly after now, is titled "Upcoming event", and is exactly the reminder (title, body, id and fire time) of some event of the list |
| `Scheduler.OneReminderPerEvent` | App.js:127 | with unique identifiers, an event gets exactly one reminder when it is due and none otherwise |
| `Scheduler.NoReminderFor` | App.js:127 | no reminder refers to an identifier that no event has |
| `Scheduler.NextSummaryTimeSpec` | App.js:129-132 | the summary fires at an 08:00, strictly after now, at most a day later, and no 08:00 lies between now and it |
| `Scheduler.SummaryTodayOrTomorrow` | App.js:131-132 | at 07:00 the summary is at 08:00 the same day; at 09:00 it is at 08:00 the next day |
| `Scheduler.DisabledOnlyCancels` | App.js:125-139 | with notifications disabled a run makes the cancel-all call and nothing else |
| `Scheduler.DueEventsDisabled` | App.js:108 | helper for `DisabledOnlyCancels`: with notifications disabled no event's reminder is due |
| `Scheduler.RunCallsOrder` | App.js:125-139 | a run starts with cancel-all and then makes only schedule calls, all firing after now, at most one per event plus the summary; the summary, when asked for, is the last call |
| `Scheduler.RunConverges` | App.js:125-139 | after a run the native platform holds exactly the desired schedule, whatever came before; running twice ends where running once does |
| `Scheduler.RunReplay` | App.js:125-139 | replaying a run's calls gives the desired schedule on a native platform and leaves a simulated one unchanged |
| `Scheduler.StandupExample` | App.js:107-118 | "Team Standup" in 45 minutes with the default 10-minute lead gets exactly one reminder, 35 minutes from now |
| `EventList.MinutesFromInputSpec` | App.js:146 | the minutes are `max(1, parsed)`: an empty input means 30, a number of at least 1 is kept as typed, a number below 1 becomes 1, and no number gives `NaN` |
| `EventList.TitleFromInputSpec` | App.js:147 | the title is never empty: a blank input gives "New Event"; otherwise the title is the trimmed input |
| `EventList.NewEventSpec` | App.js:97-100 | `mkEvent` on the inputs of `addEvent`: an added event has the fresh id and the cleaned title, and happens the entered minutes (at least one) from now; adding fails exactly when the input holds no number or the time is outside the `Date` range |
| `EventList.WithoutAppend` | App.js:155 | deleting from a concatenation deletes from each part |
| `EventList.WithoutRemoves` | App.js:155 | after deleting, no event with the identifier is left |
| `EventList.WithoutKeeps` | App.js:155 | every event with another identifier is kept, as often as it occurred |
| `EventList.WithoutAbsent` | App.js:155 | deleting an identifier that no event has leaves the list unchanged |
| `EventList.WithoutKeepsOrder` | App.js:155 | helper, `WithoutAppend` at a split point: the remaining events keep their relative order |
| `EventList.DeletedNeverScheduled` | App.js:155 | after a deletion no run issues a request that refers to the deleted event |
| `EventList.InsertSpec` | App.js:177 | inserting into a sorted list keeps it sorted and adds exactly the event |
| `EventList.SortByTimeSpec` | App.js:177 | the displayed list is sorted by time and is a permutation of the event list |
| `CalendarApp.App.constructor` | App.js:78-84 | the initial state: notifications on, 10-minute lead, no summary, inputs "" and "30", and the two sample events at +45 and +120 minutes |
| `CalendarApp.App.Invoke` | App.js:60-67 | every call is logged; a native capability forwards it to the platform's queue and a simulated one leaves the queue alone |
| `CalendarApp.App.CheckPermissions` | App.js:86-95 | before the hook is ready nothing happens; afterwards the calls made and the warning are those of the permission flow, and the platform's queue is untouched |
| `CalendarApp.App.ScheduleForEvent` | App.js:107-118 | the only call made is the schedule call for the event's reminder, if one is due; the platform gains exactly that reminder when native |
| `CalendarApp.App.ClearAllScheduled` | App.js:120-123 | one cancel-all call; a native platform is emptied; the message depends on `isNative` |
| `CalendarApp.App.ScheduleEachEvent` | App.js:127 | the loop makes the schedule calls of `EventReminders` in list order, and a native platform gains exactly those reminders |
| `CalendarApp.App.ScheduleDailySummary` | App.js:128-137 | the summary is scheduled once, at the next 08:00, exactly when it is asked for and notifications are enabled |
| `CalendarApp.App.ScheduleDesired` | App.js:127-137 | after cancelling, a run makes the schedule calls of the desired schedule |
| `CalendarApp.App.RescheduleAll` | App.js:125-139 | a run makes exactly the calls `RunCalls`; afterwards a native platform holds exactly the desired schedule and a simulated one is unchanged; the message is "Reminders scheduled" or "Scheduled (web mock)" |
| `CalendarApp.App.ReconcileIfReady` | App.js:141-143 | a run happens exactly when the hook is ready, with the calls, queue and message of `RescheduleAll` |
| `CalendarApp.App.SetPreferences` | App.js:204-218 | the settings screen sets the three preferences |
| `CalendarApp.App.AddEvent` | App.js:145-153 | the new event is put at the front and the rest keep their order, the inputs reset to "" and "30", and the message names the event's time; when `mkEvent` throws, nothing changes |
| `CalendarApp.App.DeleteEvent` | App.js:155 | the list becomes the list without the events with that identifier |
| `CalendarApp.App.DisplayList` | App.js:177 | the list view is sorted by time and is a permutation of the events |

## Left out

- Rendering, tabs, styles and React's effect dependency tracking (`App.js:157-276`) are left out. `ReconcileIfReady` models only the effect's body; which state changes trigger it is not modelled.
- The snackbar's 2000 ms auto-dismiss (`App.js:245`) is user-interface timing and is not modelled.
- Asynchronous interleaving is not modelled: overlapping runs, the `isMounted` guard and awaiting each call. Each method runs to completion. `RunConverges` covers runs that do not interleave: all calls of the last run come after every other call. When runs interleave at the `await`s (`App.js:113`, `121`, `127`, `133`), a schedule call of an older run can land after the newer run's cancel-all and survive; that case is not modelled.
- The dynamic import, the foreground handler and the Android channel are calls into the platform module. Only their outcome is modelled, as the `LoadOutcome` parameter of `NotificationHook.Load`.
- A native capability call that rejects is not modelled. `App.js` awaits these calls without any `try`/`catch`, so a rejection is fail-fast: a rejected cancel-all (`App.js:121`, awaited at `App.js:126`) ends the run before any schedule call and before the message at `App.js:138`; a rejected per-event call (`App.js:113` via `App.js:127`) ends the run at that event, with no later event, no summary and no message; a rejection at `App.js:89` or `App.js:91` ends the permission effect without the warning. The model only covers calls that succeed.
- The id returned by `scheduleNotificationAsync` is discarded by `rescheduleAll`, so the model does not return one.
- `fmtTime`'s locale formatting is the uninterpreted function `formatTime`. Time zones, daylight-saving changes and `Date`'s calendar arithmetic become integer milliseconds with a fixed 86 400 000 ms day.
- `CalendarApp.App.RescheduleAll` reads the clock once per run, as its `now` parameter. The code reads `Date.now()` again for every event and for the summary.
- `CalendarApp.App.AddEvent` uses exact integer arithmetic. JavaScript numbers are doubles, so a minutes input beyond 2^53 would be rounded, and `parseInt` of very long digit runs loses precision.
- `JsText.Trim` works on Unicode scalar values. JavaScript strings are UTF-16, and characters outside the Basic Multilingual Plane are never white space, so trimming gives the same text.
- `EventList.SortByTimeSpec` states sortedness and permutation only. It does not state that events at equal times keep their list order, although `Insert` is stable, as `Array.prototype.sort` is.
- `Math.random` identifiers are parameters (`freshId`, `standupId`, `workBlockId`). The model does not assume they are unique; `OneReminderPerEvent` takes uniqueness as a premise.
- The other screens, `app/`, `index.tsx` and `tasks.tsx`, are navigation and alert UI with no scheduling logic, and are not part of this model.
