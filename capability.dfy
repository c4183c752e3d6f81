/**
 * The notification capability of `useNotifications`: one interface for
 * "check permission, request permission, schedule, cancel all" that is either
 * forwarded to the platform's notification module (Native) or answered by a
 * simulated stand-in (Simulated) on the web or when the module did not load.
 */
module Capability {
  import opened Optional

  datatype Platform = Web | Android | Ios

  datatype Capability = Simulated | Native

  datatype PermissionStatus = Granted | Denied | Undetermined

  /** What a notification shows, and the event it refers to (`data.eventId`), if any. */
  datatype Content = Content(title: string, body: string, eventId: Option<string>)

  /** One `scheduleNotificationAsync` request: content and absolute fire time in ms. */
  datatype Request = Request(content: Content, trigger: int)

  /** The calls the application makes on the capability, in the order it makes them. */
  datatype Call =
    | GetPermissions
    | RequestPermissions
    | Schedule(request: Request)
    | CancelAll

  /** Outcome of the dynamic import of the platform module: rejected, or resolved and then set up (handler, channel) with or without error. */
  datatype LoadOutcome = ImportRejected | ImportResolved(setupSucceeded: bool)

  /** `getPermissionsAsync`: the simulated capability always answers "granted". */
  function QueryPermission(cap: Capability, platformStatus: PermissionStatus): (s: PermissionStatus)
  {
    match cap
    case Simulated => Granted
    case Native => platformStatus
  }

  /** `requestPermissionsAsync`: the simulated capability always answers "granted". */
  function RequestPermission(cap: Capability, platformReply: PermissionStatus): (s: PermissionStatus)
  {
    match cap
    case Simulated => Granted
    case Native => platformReply
  }

  /**
   * The effect of one call on the notifications the platform holds. Native
   * forwards it: cancel-all empties the queue and schedule appends to it. The
   * simulated capability changes nothing; permission calls change nothing.
   */
  function Step(cap: Capability, pending: seq<Request>, call: Call): (p: seq<Request>)
  {
    match (cap, call)
    case (Native, CancelAll) => []
    case (Native, Schedule(r)) => pending + [r]
    case _ => pending
  }

  /** The platform's queue after `calls`, one `Step` at a time in order. */
  function Replay(cap: Capability, pending: seq<Request>, calls: seq<Call>): (p: seq<Request>)
  {
    if calls == [] then pending
    else Step(cap, Replay(cap, pending, calls[..|calls| - 1]), calls[|calls| - 1])
  }

  /** Schedule calls for `rs`, in order. */
  function Schedules(rs: seq<Request>): (cs: seq<Call>)
    ensures |cs| == |rs|
  {
    if rs == [] then [] else Schedules(rs[..|rs| - 1]) + [Schedule(rs[|rs| - 1])]
  }

  /** Appending to a call log in two steps is appending once. */
  lemma AppendTwice<T>(log: seq<T>, xs: seq<T>, ys: seq<T>)
    ensures log + xs + ys == log + (xs + ys)
  {
  }

  /** The schedule calls of a concatenation are the concatenated schedule calls. */
  lemma {:induction false} SchedulesAppend(xs: seq<Request>, ys: seq<Request>)
    ensures Schedules(xs + ys) == Schedules(xs) + Schedules(ys)
  {
    if ys == [] {
      assert xs + ys == xs;
    } else {
      assert (xs + ys)[..|xs + ys| - 1] == xs + ys[..|ys| - 1];
      SchedulesAppend(xs, ys[..|ys| - 1]);
    }
  }

  /** Each call of `Schedules(rs)` schedules the request at the same place. */
  lemma {:induction false} SchedulesAt(rs: seq<Request>, k: nat)
    requires k < |rs|
    ensures Schedules(rs)[k] == Schedule(rs[k])
  {
    if k < |rs| - 1 {
      SchedulesAt(rs[..|rs| - 1], k);
    }
  }

  /** Replaying `xs + ys` is replaying `ys` on the queue `xs` left. */
  lemma {:induction false} ReplayAppend(cap: Capability, pending: seq<Request>, xs: seq<Call>, ys: seq<Call>)
    ensures Replay(cap, pending, xs + ys) == Replay(cap, Replay(cap, pending, xs), ys)
  {
    if ys == [] {
      assert xs + ys == xs;
    } else {
      assert (xs + ys)[..|xs + ys| - 1] == xs + ys[..|ys| - 1];
      ReplayAppend(cap, pending, xs, ys[..|ys| - 1]);
    }
  }

  /** The simulated capability has no effect, whatever is called on it. */
  lemma {:induction false} SimulatedIsInert(pending: seq<Request>, calls: seq<Call>)
    ensures Replay(Simulated, pending, calls) == pending
  {
    if calls != [] {
      SimulatedIsInert(pending, calls[..|calls| - 1]);
    }
  }

  /** On the platform, a run of schedule calls appends exactly those requests, in order. */
  lemma {:induction false} ReplaySchedules(pending: seq<Request>, rs: seq<Request>)
    ensures Replay(Native, pending, Schedules(rs)) == pending + rs
  {
    if rs == [] {
      assert pending + rs == pending;
    } else {
      var init := rs[..|rs| - 1];
      assert Schedules(rs)[..|rs| - 1] == Schedules(init);
      ReplaySchedules(pending, init);
      assert pending + init + [rs[|rs| - 1]] == pending + rs;
    }
  }

  /**
   * Cancel-all followed by schedule calls leaves the platform holding exactly
   * the scheduled requests, whatever was there and whatever was called before.
   */
  lemma ClearThenScheduleConverges(pending: seq<Request>, before: seq<Call>, rs: seq<Request>)
    ensures Replay(Native, pending, before + ([CancelAll] + Schedules(rs))) == rs
  {
    ReplayAppend(Native, pending, before, [CancelAll] + Schedules(rs));
    var mid := Replay(Native, pending, before);
    ReplayAppend(Native, mid, [CancelAll], Schedules(rs));
    assert [CancelAll][..0] == [];
    assert Replay(Native, mid, [CancelAll]) == [];
    ReplaySchedules([], rs);
    assert [] + rs == rs;
  }

  /** After cancel-all and schedule calls for `rs`, a native platform holds exactly `rs`; a simulated one what it held. */
  lemma ClearThenSchedule(cap: Capability, pending: seq<Request>, rs: seq<Request>)
    ensures Replay(cap, pending, [CancelAll] + Schedules(rs)) == if cap == Native then rs else pending
  {
    if cap == Native {
      ClearThenScheduleConverges(pending, [], rs);
      assert [] + ([CancelAll] + Schedules(rs)) == [CancelAll] + Schedules(rs);
    } else {
      SimulatedIsInert(pending, [CancelAll] + Schedules(rs));
    }
  }

  /** What the permission effect did: the calls it made and whether it warned. */
  datatype PermissionOutcome = PermissionOutcome(calls: seq<Call>, warned: bool)

  /**
   * The permission effect once the capability is ready: ask for the status and,
   * only when it is not "granted", request permission; warn only when that
   * request is not granted either.
   */
  function PermissionFlow(cap: Capability, platformStatus: PermissionStatus, platformReply: PermissionStatus): (o: PermissionOutcome)
  {
    if QueryPermission(cap, platformStatus) == Granted then PermissionOutcome([GetPermissions], false)
    else PermissionOutcome([GetPermissions, RequestPermissions], RequestPermission(cap, platformReply) != Granted)
  }

  /** Permission is requested exactly when the native status is not "granted"; the warning needs the request to fail too. */
  lemma PermissionFlowSpec(cap: Capability, platformStatus: PermissionStatus, platformReply: PermissionStatus)
    ensures var o := PermissionFlow(cap, platformStatus, platformReply);
      && o.calls == (if cap == Native && platformStatus != Granted then [GetPermissions, RequestPermissions] else [GetPermissions])
      && (RequestPermissions in o.calls <==> cap == Native && platformStatus != Granted)
      && (o.warned <==> cap == Native && platformStatus != Granted && platformReply != Granted)
  {
  }

  /** The simulated capability grants everything, so the permission flow never warns nor requests. */
  lemma SimulatedNeverWarns(platformStatus: PermissionStatus, platformReply: PermissionStatus)
    ensures PermissionFlow(Simulated, platformStatus, platformReply) == PermissionOutcome([GetPermissions], false)
  {
  }

  /**
   * `useNotifications`: the platform, whether the notification module is held
   * (`modRef.current`), and `ready`.
   */
  class NotificationHook {
    const platform: Platform
    var moduleLoaded: bool
    var ready: bool

    /** The first render: nothing loaded; the web is ready immediately. */
    constructor (platform: Platform)
      ensures this.platform == platform
      ensures !moduleLoaded
      ensures ready == (platform == Web)
      ensures Api() == Simulated
    {
      this.platform := platform;
      moduleLoaded := false;
      ready := platform == Web;
    }

    /**
     * The interface the hook hands out: simulated on the web or while no module
     * is held, otherwise forwarded to the module.
     */
    function Api(): (cap: Capability)
      reads this
    {
      if platform == Web || !moduleLoaded then Simulated else Native
    }

    /**
     * The one-time load effect. Nothing on the web. Otherwise the module is kept
     * as soon as the import resolves (before the handler and channel set-up), and
     * the hook becomes ready whether or not any step failed.
     */
    method Load(outcome: LoadOutcome)
      modifies this
      ensures platform == Web ==> moduleLoaded == old(moduleLoaded) && ready == old(ready)
      ensures platform != Web ==> ready
      ensures platform != Web ==> moduleLoaded == (old(moduleLoaded) || outcome.ImportResolved?)
      ensures platform != Web && !old(moduleLoaded) ==> Api() == (if outcome.ImportResolved? then Native else Simulated)
    {
      if platform == Web {
        return;
      }
      match outcome {
        case ImportRejected =>
          ready := true;
        case ImportResolved(setupSucceeded) =>
          moduleLoaded := true;
          ready := true;
      }
    }
  }
}
