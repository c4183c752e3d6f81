/**
 * The event list of the calendar screen: building an event from the two text
 * inputs (`mkEvent`, `addEvent`), removing events by identifier
 * (`deleteEvent`), and the time-ordered copy the list view displays.
 */
module EventList {
  import opened Optional
  import opened JsText
  import opened Scheduler

  /** The largest distance from the epoch a JavaScript `Date` can hold, in ms. */
  const MaxTimeMs: int := 8_640_000_000_000_000
  const DefaultMinutesInput: string := "30"
  const DefaultTitle: string := "New Event"

  /** `toISOString` throws a RangeError ("Invalid time value") on an invalid date. */
  datatype AddError = InvalidTimeValue

  predicate ValidTime(t: int) {
    -MaxTimeMs <= t <= MaxTimeMs
  }

  /**
   * `Math.max(1, parseInt(input || '30', 10))`: an empty input means 30, and a
   * parsed number below 1 becomes 1; `None` is `NaN` (no number in the input).
   */
  function MinutesFromInput(input: string): Option<int>
  {
    match ParseInt(if input == "" then DefaultMinutesInput else input)
    case None => None
    case Some(n) => Some(if n < 1 then 1 else n)
  }

  /**
   * The minutes are at least 1 whenever the input holds a number, an empty
   * input means 30, a number of at least 1 is taken as typed, a number below 1
   * becomes 1, and `NaN` stays `NaN`.
   */
  lemma MinutesFromInputSpec(input: string)
    ensures var m := MinutesFromInput(input);
      && (m.Some? ==> m.value >= 1)
      && (input == "" ==> m == Some(30))
      && (input != "" ==> (m.None? <==> ParseInt(input).None?))
      && (input != "" && ParseInt(input).Some? && ParseInt(input).value >= 1 ==> m == ParseInt(input))
      && (input != "" && ParseInt(input).Some? && ParseInt(input).value < 1 ==> m == Some(1))
  {
    ParseDecimal(30, []);
    assert Decimal(30) + [] == "30";
  }

  /** `title.trim() || 'New Event'`. */
  function TitleFromInput(input: string): string
  {
    var t := Trim(input);
    if t == "" then DefaultTitle else t
  }

  /** The title is never empty: a blank input gives "New Event"; otherwise the title is the trimmed input. */
  lemma TitleFromInputSpec(input: string)
    ensures var t := TitleFromInput(input);
      && t != ""
      && (AllSpace(input) ==> t == "New Event")
      && (!AllSpace(input) ==> t == Trim(input) && !IsJsSpace(t[0]) && !IsJsSpace(t[|t| - 1]))
  {
  }

  /** `mkEvent`: an event `minutes` from now with a fresh identifier; throws when the time is not a valid date. */
  function MkEvent(id: string, title: string, minutes: int, now: int): Result<Event, AddError>
  {
    var when := now + minutes * MsPerMinute;
    if ValidTime(when) then Success(Event(id, title, when)) else Failure(InvalidTimeValue)
  }

  /** The event `addEvent` creates from the two inputs, or the error it throws. */
  function NewEvent(id: string, titleInput: string, minutesInput: string, now: int): Result<Event, AddError>
  {
    match MinutesFromInput(minutesInput)
    case None => Failure(InvalidTimeValue)
    case Some(m) => MkEvent(id, TitleFromInput(titleInput), m, now)
  }

  /**
   * An added event has the given identifier, the cleaned title, and happens
   * the entered number of minutes (at least one) from now; it fails only when
   * the input holds no number or the time is outside the `Date` range.
   */
  lemma NewEventSpec(id: string, titleInput: string, minutesInput: string, now: int)
    ensures var r := NewEvent(id, titleInput, minutesInput, now);
      && (r.Failure? <==>
            (MinutesFromInput(minutesInput).None? || !ValidTime(now + MinutesFromInput(minutesInput).value * 60000)))
      && (r.Success? ==>
            && r.value.id == id
            && r.value.title == TitleFromInput(titleInput)
            && r.value.whenMs >= now + 60000
            && r.value.whenMs == now + MinutesFromInput(minutesInput).value * 60000)
  {
    MinutesFromInputSpec(minutesInput);
  }

  /** `prev.filter((e) => e.id !== id)`. */
  function Without(events: seq<Event>, id: string): seq<Event>
  {
    if events == [] then []
    else (if events[0].id == id then [] else [events[0]]) + Without(events[1..], id)
  }

  lemma {:induction false} WithoutAppend(xs: seq<Event>, ys: seq<Event>, id: string)
    ensures Without(xs + ys, id) == Without(xs, id) + Without(ys, id)
  {
    if xs == [] {
      assert xs + ys == ys;
    } else {
      assert (xs + ys)[1..] == xs[1..] + ys;
      WithoutAppend(xs[1..], ys, id);
    }
  }

  /** After deleting, no event with the identifier is left. */
  lemma {:induction false} WithoutRemoves(events: seq<Event>, id: string)
    ensures forall e :: e in Without(events, id) ==> e.id != id
  {
    if events != [] {
      WithoutRemoves(events[1..], id);
    }
  }

  /** Deleting keeps every event with another identifier, as often as it occurred. */
  lemma {:induction false} WithoutKeeps(events: seq<Event>, id: string, e: Event)
    requires e.id != id
    ensures multiset(Without(events, id))[e] == multiset(events)[e]
  {
    if events != [] {
      var kept := if events[0].id == id then [] else [events[0]];
      WithoutKeeps(events[1..], id, e);
      assert multiset(Without(events, id)) == multiset(kept) + multiset(Without(events[1..], id));
      assert events == [events[0]] + events[1..];
      assert multiset(events) == multiset{events[0]} + multiset(events[1..]);
    }
  }

  /** Deleting an identifier no event has changes nothing. */
  lemma {:induction false} WithoutAbsent(events: seq<Event>, id: string)
    requires forall k :: 0 <= k < |events| ==> events[k].id != id
    ensures Without(events, id) == events
  {
    if events != [] {
      WithoutAbsent(events[1..], id);
      assert events == [events[0]] + events[1..];
    }
  }

  /** Deleting keeps the order of the remaining events: it distributes over splitting the list anywhere. */
  lemma WithoutKeepsOrder(events: seq<Event>, k: nat, id: string)
    requires k <= |events|
    ensures Without(events, id) == Without(events[..k], id) + Without(events[k..], id)
  {
    WithoutAppend(events[..k], events[k..], id);
    assert events[..k] + events[k..] == events;
  }

  /** After deleting an event, no later run issues a request referring to it. */
  lemma DeletedNeverScheduled(prefs: Prefs, now: int, formatTime: int -> string, events: seq<Event>, id: string)
    ensures forall r :: r in DesiredSchedule(prefs, now, formatTime, Without(events, id)) ==> r.content.eventId != Some(id)
  {
    var rest := Without(events, id);
    WithoutRemoves(events, id);
    EventRemindersFromEvents(prefs, now, formatTime, rest);
  }

  /** The time order of the list view (`new Date(a.whenISO) - new Date(b.whenISO)`). */
  predicate SortedByTime(events: seq<Event>) {
    forall i, j :: 0 <= i < j < |events| ==> events[i].whenMs <= events[j].whenMs
  }

  /** Puts `ev` before the first event that is not earlier, so that ties keep list order. */
  function Insert(ev: Event, sorted: seq<Event>): seq<Event>
  {
    if sorted == [] || ev.whenMs <= sorted[0].whenMs then [ev] + sorted
    else [sorted[0]] + Insert(ev, sorted[1..])
  }

  lemma {:induction false} InsertSpec(ev: Event, sorted: seq<Event>)
    requires SortedByTime(sorted)
    ensures SortedByTime(Insert(ev, sorted))
    ensures multiset(Insert(ev, sorted)) == multiset(sorted) + multiset{ev}
  {
    if sorted == [] || ev.whenMs <= sorted[0].whenMs {
      SortedCons(ev, sorted);
    } else {
      var rest := Insert(ev, sorted[1..]);
      InsertSpec(ev, sorted[1..]);
      assert sorted == [sorted[0]] + sorted[1..];
      forall x | x in rest ensures sorted[0].whenMs <= x.whenMs {
        assert x in multiset(rest);
      }
      SortedCons(sorted[0], rest);
    }
  }

  /** An event no later than every event of a sorted list can go in front of it. */
  lemma SortedCons(ev: Event, sorted: seq<Event>)
    requires SortedByTime(sorted)
    requires forall x :: x in sorted ==> ev.whenMs <= x.whenMs
    ensures SortedByTime([ev] + sorted)
  {
    var s := [ev] + sorted;
    forall i, j | 0 <= i < j < |s| ensures s[i].whenMs <= s[j].whenMs {
      if i == 0 {
        assert s[j] == sorted[j - 1] && sorted[j - 1] in sorted;
      } else {
        assert s[i] == sorted[i - 1] && s[j] == sorted[j - 1];
      }
    }
  }

  /** `[...events].sort(byTime)`: a copy of the list in time order. */
  function SortByTime(events: seq<Event>): seq<Event>
  {
    if events == [] then [] else Insert(events[0], SortByTime(events[1..]))
  }

  /** The displayed list is in time order and holds exactly the events of the list. */
  lemma {:induction false} SortByTimeSpec(events: seq<Event>)
    ensures SortedByTime(SortByTime(events))
    ensures multiset(SortByTime(events)) == multiset(events)
  {
    if events != [] {
      SortByTimeSpec(events[1..]);
      InsertSpec(events[0], SortByTime(events[1..]));
      assert events == [events[0]] + events[1..];
    }
  }
}
