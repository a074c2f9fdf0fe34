/**
 * The motion/recording controller of script.js: the closure variables
 * `isMotionDetected`, `recordingTimeout` and `recordingStartTime`, the display state
 * the handlers switch, and the event log.
 *
 * The functions on `View` are the specification of one handler each; the class
 * `Dashboard` holds the same state in fields and its methods, which change those
 * fields the way the handlers do, are proved to follow them. The clock is a
 * parameter (`Instant`), and each timer firing is an explicit event.
 */
module MotionController {
  import opened Wrappers
  import opened Timestamp
  import opened EventLog

  /** The moment a handler runs: `Date.now()` and the local fields of `new Date()`. */
  datatype Instant = Instant(epochMillis: int, local: DateFields)

  /** One `<li>` of the event log: the local date it was logged at and its message.
      The text the `<li>` shows before the message is `Timestamp()`; since `Format`
      is injective on calendar dates, keeping the date loses nothing. */
  datatype Entry = Entry(at: DateFields, message: string) {
    function Timestamp(): (r: string)
      ensures InCalendarRange(at) ==> ParseTimestamp(r) == Some(at)
    {
      if InCalendarRange(at) then FormatRoundTrip(at); Format(at) else Format(at)
    }
  }

  const LOADED_MSG := "Dashboard Loaded. Awaiting system connection."
  const DETECTED_MSG := "Motion Detected. Recording started."
  const STREAM_MSG := "Live video stream active."
  const CLEARED_MSG := "Motion Cleared. Recording will stop soon."
  const STOPPED_MSG := "No motion for 10s. Recording stopped."
  const TOGGLED_PREFIX := "Manually toggled motion to: "

  /** The `systemMessage` texts of the two status displays. */
  const ACTIVE_TEXT := "System Armed & Active. Recording started."
  const ARMED_TEXT := "System Armed. Monitoring area."

  /** `liveVideo.srcObject === null`: script.js never assigns `srcObject`. */
  const SRC_OBJECT_NULL := true

  /** How a template literal renders a boolean. */
  function BoolText(b: bool): (r: string)
    ensures b <==> r == "true"
    ensures !b <==> r == "false"
  {
    if b then "true" else "false"
  }

  /** The entry `addEventToLog(message)` creates at `now`. */
  function Stamp(now: Instant, message: string): (e: Entry)
    ensures e.message == message && e.at == now.local
  {
    Entry(now.local, message)
  }

  /** The display state the page starts in, before any handler runs. */
  datatype Page = Page(statusActive: bool, systemMessage: string, indicatorOn: bool, videoShown: bool, overlayShown: bool)

  /** The status card inactive, the recording indicator and the video hidden, the
      "no feed" overlay shown. */
  predicate IdlePage(p: Page) {
    !p.statusActive && !p.indicatorOn && !p.videoShown && p.overlayShown
  }

  /**
   * The whole state of the controller:
   *  - `motion`: `isMotionDetected`;
   *  - `pendingStop`: a `recordingTimeout` timer is armed and has not fired;
   *  - `connectPending`: the start-up connection timer has not fired;
   *  - `statusActive`, `systemMessage`: the status card's `active` class and text;
   *  - `indicatorOn`, `videoShown`, `overlayShown`: whether the recording indicator,
   *    the video and the "no feed" overlay are displayed;
   *  - `recordingStart`: `recordingStartTime`;
   *  - `log`: the event log, newest first.
   */
  datatype View = View(
    motion: bool, pendingStop: bool, connectPending: bool,
    statusActive: bool, systemMessage: string,
    indicatorOn: bool, videoShown: bool, overlayShown: bool,
    recordingStart: Option<int>, log: seq<Entry>)

  /** The invariant of every reachable state: a stop is armed only while motion is
      absent; the recording indicator, the video and the start time are all present
      exactly while motion is present or a stop is armed; the status card shows
      the motion state; the log holds at most 20 entries. */
  predicate Consistent(v: View) {
    && (v.pendingStop ==> !v.motion)
    && (v.indicatorOn <==> v.motion || v.pendingStop)
    && v.videoShown == v.indicatorOn
    && v.overlayShown == !v.indicatorOn
    && (v.recordingStart.Some? <==> v.indicatorOn)
    && v.statusActive == v.motion
    && |v.log| <= MAX_ENTRIES
  }

  /** `addEventToLog(message)`. */
  function Logged(v: View, message: string, now: Instant): (r: View)
    ensures |r.log| >= 1 && r.log[0].message == message && r.log[0].at == now.local
    ensures r.log == Prepend(v.log, Stamp(now, message))
    ensures r.(log := v.log) == v
  {
    v.(log := Prepend(v.log, Stamp(now, message)))
  }

  /** The start-up sequence up to the connection timer: one log entry. */
  function Loaded(page: Page, now: Instant): (r: View)
    ensures r.log == [Stamp(now, LOADED_MSG)]
    ensures !r.motion && !r.pendingStop && r.connectPending && r.recordingStart == None
    ensures IdlePage(page) ==> Consistent(r)
  {
    var empty := View(false, false, true, page.statusActive, page.systemMessage,
                      page.indicatorOn, page.videoShown, page.overlayShown, None, []);
    Logged(empty, LOADED_MSG, now)
  }

  /** `startRecording()`. */
  function Started(v: View, now: Instant): (r: View)
    ensures !r.pendingStop && r.indicatorOn && r.videoShown && !r.overlayShown
    ensures r.recordingStart == Some(now.epochMillis)
    ensures r.log == Prepend(v.log, Stamp(now, STREAM_MSG))
    ensures r.motion == v.motion && r.connectPending == v.connectPending
    ensures r.statusActive == v.statusActive && r.systemMessage == v.systemMessage
  {
    var cancelled := v.(pendingStop := false);
    var shown :=
      if !cancelled.videoShown || SRC_OBJECT_NULL then
        Logged(cancelled.(videoShown := true, overlayShown := false, indicatorOn := true), STREAM_MSG, now)
      else
        cancelled.(indicatorOn := true);
    shown.(recordingStart := Some(now.epochMillis))
  }

  /** `stopRecordingAfterDelay()`: any armed stop is cleared and exactly one is armed. */
  function StopArmed(v: View): (r: View)
    ensures r.pendingStop
    ensures r.(pendingStop := v.pendingStop) == v
  {
    v.(pendingStop := true)
  }

  /** `simulateMotionDetection(detected)`. */
  function AfterMotion(v: View, detected: bool, now: Instant): (r: View)
    ensures detected && !v.motion ==>
      && r.motion && !r.pendingStop && r.connectPending == v.connectPending
      && r.statusActive && r.systemMessage == ACTIVE_TEXT
      && r.indicatorOn && r.videoShown && !r.overlayShown
      && r.recordingStart == Some(now.epochMillis)
      && r.log == Prepend(Prepend(v.log, Stamp(now, DETECTED_MSG)), Stamp(now, STREAM_MSG))
    ensures !detected && v.motion ==>
      r == v.(motion := false, pendingStop := true, statusActive := false, systemMessage := ARMED_TEXT,
              log := Prepend(v.log, Stamp(now, CLEARED_MSG)))
    ensures !detected && !v.motion ==> r == v.(statusActive := false, systemMessage := ARMED_TEXT)
    ensures detected && v.motion ==> r == v
    ensures Consistent(v) ==> Consistent(r)
  {
    if detected && !v.motion then
      var shown := v.(motion := true, statusActive := true, systemMessage := ACTIVE_TEXT);
      Started(Logged(shown, DETECTED_MSG, now), now)
    else if !detected && v.motion then
      var cleared := v.(motion := false, statusActive := false, systemMessage := ARMED_TEXT);
      StopArmed(Logged(cleared, CLEARED_MSG, now))
    else if !detected && !v.motion then
      v.(statusActive := false, systemMessage := ARMED_TEXT)
    else
      v
  }

  /** The callback of the armed `recordingTimeout`, ten seconds after motion cleared. */
  function AfterStopFired(v: View, now: Instant): (r: View)
    requires v.pendingStop
    ensures !r.pendingStop && !r.indicatorOn && !r.videoShown && r.overlayShown
    ensures r.recordingStart == None
    ensures r.log == Prepend(v.log, Stamp(now, STOPPED_MSG))
    ensures r.motion == v.motion && r.connectPending == v.connectPending
    ensures r.statusActive == v.statusActive && r.systemMessage == v.systemMessage
    ensures Consistent(v) ==> Consistent(r)
  {
    var hidden := v.(pendingStop := false, indicatorOn := false, videoShown := false, overlayShown := true);
    Logged(hidden, STOPPED_MSG, now).(recordingStart := None)
  }

  /** The callback of the start-up timer: `simulateMotionDetection(false)`. */
  function AfterConnection(v: View, now: Instant): (r: View)
    requires v.connectPending
    ensures !r.connectPending && !r.motion && !r.statusActive && r.systemMessage == ARMED_TEXT
    ensures !v.motion ==> r.log == v.log && r.pendingStop == v.pendingStop && r.indicatorOn == v.indicatorOn
    ensures v.motion ==> r.pendingStop && r.log == Prepend(v.log, Stamp(now, CLEARED_MSG))
    ensures Consistent(v) ==> Consistent(r)
  {
    AfterMotion(v.(connectPending := false), false, now)
  }

  /** The click handler of the status card: `simulateMotionDetection(!isMotionDetected)`
      and then a log entry that reads the variable after it has flipped, so that it
      names the state before the click. */
  function AfterToggle(v: View, now: Instant): (r: View)
    ensures r.motion == !v.motion
    ensures |r.log| >= 1 && r.log[0] == Stamp(now, TOGGLED_PREFIX + BoolText(v.motion))
    ensures v.motion ==> r.log == Prepend(Prepend(v.log, Stamp(now, CLEARED_MSG)), r.log[0])
    ensures !v.motion ==>
      r.log == Prepend(Prepend(Prepend(v.log, Stamp(now, DETECTED_MSG)), Stamp(now, STREAM_MSG)), r.log[0])
    ensures v.motion ==> r.pendingStop
    ensures !v.motion ==> !r.pendingStop && r.indicatorOn && r.recordingStart == Some(now.epochMillis)
    ensures Consistent(v) ==> Consistent(r)
  {
    var flipped := AfterMotion(v, !v.motion, now);
    var r := Logged(flipped, TOGGLED_PREFIX + BoolText(!flipped.motion), now);
    r
  }

  /** The stimuli the page reacts to, one handler run each. */
  datatype Event =
    | Report(detected: bool, at: Instant)   // a call of simulateMotionDetection(detected)
    | StopTimerFired(at: Instant)           // the ten-second recordingTimeout comes due
    | ConnectTimerFired(at: Instant)        // the two-second start-up timer comes due
    | CardClick(at: Instant)                // a click on the status card

  /** One handler run. A timer that is not armed (never set, cleared, or already
      fired) runs nothing when its time would have come. */
  function Step(v: View, e: Event): (r: View)
    ensures Consistent(v) ==> Consistent(r)
    ensures e.StopTimerFired? && !v.pendingStop ==> r == v
    ensures e.ConnectTimerFired? && !v.connectPending ==> r == v
  {
    match e
    case Report(detected, at) => AfterMotion(v, detected, at)
    case StopTimerFired(at) => if v.pendingStop then AfterStopFired(v, at) else v
    case ConnectTimerFired(at) => if v.connectPending then AfterConnection(v, at) else v
    case CardClick(at) => AfterToggle(v, at)
  }

  /** The handler runs `es`, in order. */
  function Run(v: View, es: seq<Event>): (r: View)
    ensures Consistent(v) ==> Consistent(r)
    decreases |es|
  {
    if es == [] then v else Run(Step(v, es[0]), es[1..])
  }

  /** Every state reachable from a page that starts idle keeps the invariant: in
      particular a stop is armed only while motion is absent, and the recording
      indicator is on exactly while motion is present or a stop is armed. */
  lemma ReachableStatesConsistent(page: Page, now: Instant, es: seq<Event>)
    requires IdlePage(page)
    ensures var r := Run(Loaded(page, now), es);
      && (r.pendingStop ==> !r.motion)
      && (r.indicatorOn <==> r.motion || r.pendingStop)
      && (r.recordingStart.Some? <==> r.indicatorOn)
      && |r.log| <= MAX_ENTRIES
  {
  }

  /** One report of "no motion" at each instant of `ts`, in order. */
  function NoMotionReports(ts: seq<Instant>): seq<Event> {
    if ts == [] then [] else [Report(false, ts[0])] + NoMotionReports(ts[1..])
  }

  /** While no motion is present, any number of "no motion" reports leave the log,
      the armed stop, the recording display and the start time as they were, and
      only re-assert the "no motion" status display. */
  lemma {:induction false} RepeatedNoMotionIsQuiet(v: View, ts: seq<Instant>)
    requires !v.motion
    ensures var r := Run(v, NoMotionReports(ts));
      && !r.motion && r.log == v.log && r.pendingStop == v.pendingStop
      && r.indicatorOn == v.indicatorOn && r.videoShown == v.videoShown && r.overlayShown == v.overlayShown
      && r.recordingStart == v.recordingStart && r.connectPending == v.connectPending
      && (ts != [] ==> !r.statusActive && r.systemMessage == ARMED_TEXT)
      && (ts == [] ==> r == v)
    decreases |ts|
  {
    if ts != [] {
      var es := NoMotionReports(ts);
      assert es[0] == Report(false, ts[0]) && es[1..] == NoMotionReports(ts[1..]);
      RepeatedNoMotionIsQuiet(AfterMotion(v, false, ts[0]), ts[1..]);
    }
  }

  /** A report of motion while a stop is armed cancels it: the stop timer coming due
      afterwards changes nothing, so recording goes on. */
  lemma RedetectionCancelsStop(v: View, t1: Instant, t2: Instant)
    requires Consistent(v) && v.pendingStop
    ensures var r := Run(v, [Report(true, t1), StopTimerFired(t2)]);
      && r == AfterMotion(v, true, t1)
      && r.motion && !r.pendingStop && r.indicatorOn && r.recordingStart == Some(t1.epochMillis)
  {
    var v1 := Step(v, Report(true, t1));
    assert Run(v, [Report(true, t1), StopTimerFired(t2)]) == Run(v1, [StopTimerFired(t2)]);
    assert Run(v1, [StopTimerFired(t2)]) == Run(Step(v1, StopTimerFired(t2)), []);
  }

  /** The start-up scenario: the page loads, connects, sees motion, sees it clear,
      and ten seconds later stops recording. */
  lemma LoadDetectClearExpire(page: Page, t0: Instant, t1: Instant, t2: Instant, t3: Instant, t4: Instant)
    requires IdlePage(page)
    ensures var r := Run(Loaded(page, t0),
        [ConnectTimerFired(t1), Report(true, t2), Report(false, t3), StopTimerFired(t4)]);
      && !r.motion && !r.pendingStop && !r.connectPending && !r.indicatorOn && !r.videoShown && r.overlayShown
      && r.recordingStart == None && !r.statusActive && r.systemMessage == ARMED_TEXT
      && r.log == [Stamp(t4, STOPPED_MSG), Stamp(t3, CLEARED_MSG), Stamp(t2, STREAM_MSG),
                   Stamp(t2, DETECTED_MSG), Stamp(t0, LOADED_MSG)]
  {
    var e1, e2, e3, e4 := ConnectTimerFired(t1), Report(true, t2), Report(false, t3), StopTimerFired(t4);
    var v0 := Loaded(page, t0);
    var v1 := Step(v0, e1);
    var v2 := Step(v1, e2);
    var v3 := Step(v2, e3);
    var v4 := Step(v3, e4);
    assert Run(v0, [e1, e2, e3, e4]) == Run(v1, [e2, e3, e4]);
    assert Run(v1, [e2, e3, e4]) == Run(v2, [e3, e4]);
    assert Run(v2, [e3, e4]) == Run(v3, [e4]);
    assert Run(v3, [e4]) == Run(v4, []);
  }

  /** Motion clears and comes back before the stop is due: the stop never happens,
      recording goes on, and "Recording stopped" is not logged. */
  lemma ClearThenRedetect(v: View, t1: Instant, t2: Instant, t3: Instant)
    requires Consistent(v) && v.motion
    ensures var r := Run(v, [Report(false, t1), Report(true, t2), StopTimerFired(t3)]);
      && r.motion && !r.pendingStop && r.indicatorOn && r.videoShown && !r.overlayShown
      && r.recordingStart == Some(t2.epochMillis)
      && r.log == Prepend(Prepend(Prepend(v.log, Stamp(t1, CLEARED_MSG)), Stamp(t2, DETECTED_MSG)), Stamp(t2, STREAM_MSG))
  {
    var e1, e2, e3 := Report(false, t1), Report(true, t2), StopTimerFired(t3);
    var v1 := Step(v, e1);
    var v2 := Step(v1, e2);
    assert !v2.pendingStop;
    assert Step(v2, e3) == v2;
    RunThree(v, e1, e2, e3);
  }

  lemma RunThree(v: View, e1: Event, e2: Event, e3: Event)
    ensures Run(v, [e1, e2, e3]) == Step(Step(Step(v, e1), e2), e3)
  {
    var v1 := Step(v, e1);
    var v2 := Step(v1, e2);
    assert Run(v, [e1, e2, e3]) == Run(v1, [e2, e3]);
    assert Run(v1, [e2, e3]) == Run(v2, [e3]);
    assert Run(v2, [e3]) == Run(Step(v2, e3), []);
  }

  /**
   * The controller as the page holds it: the closure variables and the state of
   * the elements the handlers change.
   */
  class Dashboard {
    var motion: bool
    var pendingStop: bool
    var connectPending: bool
    var statusActive: bool
    var systemMessage: string
    var indicatorOn: bool
    var videoShown: bool
    var overlayShown: bool
    var recordingStart: Option<int>
    var log: seq<Entry>

    /** The state as a value, for the specification functions above. */
    function Snapshot(): View
      reads this
    {
      View(motion, pendingStop, connectPending, statusActive, systemMessage,
           indicatorOn, videoShown, overlayShown, recordingStart, log)
    }

    /** The page loads: the variables take their initial values, the start-up entry is
        logged and the connection timer is armed. */
    constructor (page: Page, now: Instant)
      ensures Snapshot() == Loaded(page, now)
    {
      motion := false;
      pendingStop := false;
      recordingStart := None;
      statusActive := page.statusActive;
      systemMessage := page.systemMessage;
      indicatorOn := page.indicatorOn;
      videoShown := page.videoShown;
      overlayShown := page.overlayShown;
      log := [];
      new;
      AddEventToLog(LOADED_MSG, now);
      connectPending := true;
    }

    /** `addEventToLog(message)`. */
    method AddEventToLog(message: string, now: Instant)
      modifies this`log
      ensures log == Prepend(old(log), Stamp(now, message))
    {
      var li := Stamp(now, message);
      log := [li] + log;
      if |log| > MAX_ENTRIES {
        log := log[..|log| - 1];
      }
    }

    /** `simulateMotionDetection(detected)`. */
    method SimulateMotionDetection(detected: bool, now: Instant)
      modifies this
      ensures Snapshot() == AfterMotion(old(Snapshot()), detected, now)
    {
      if detected && !motion {
        motion := true;
        statusActive := true;
        systemMessage := ACTIVE_TEXT;
        AddEventToLog(DETECTED_MSG, now);
        StartRecording(now);
      } else if !detected && motion {
        motion := false;
        statusActive := false;
        systemMessage := ARMED_TEXT;
        AddEventToLog(CLEARED_MSG, now);
        StopRecordingAfterDelay();
      } else if !detected && !motion {
        statusActive := false;
        systemMessage := ARMED_TEXT;
      }
    }

    /** `startRecording()`. */
    method StartRecording(now: Instant)
      modifies this
      ensures Snapshot() == Started(old(Snapshot()), now)
    {
      pendingStop := false;
      // The branch that only shows the indicator is never taken: SRC_OBJECT_NULL holds.
      if !videoShown || SRC_OBJECT_NULL {
        videoShown := true;
        overlayShown := false;
        indicatorOn := true;
        AddEventToLog(STREAM_MSG, now);
      }
      recordingStart := Some(now.epochMillis);
    }

    /** `stopRecordingAfterDelay()`. */
    method StopRecordingAfterDelay()
      modifies this`pendingStop
      ensures Snapshot() == StopArmed(old(Snapshot()))
    {
      pendingStop := true;
    }

    /** The callback `stopRecordingAfterDelay` arms, run when it comes due. */
    method RecordingTimeoutFires(now: Instant)
      requires pendingStop
      modifies this
      ensures Snapshot() == AfterStopFired(old(Snapshot()), now)
    {
      pendingStop := false;
      indicatorOn := false;
      videoShown := false;
      overlayShown := true;
      AddEventToLog(STOPPED_MSG, now);
      recordingStart := None;
    }

    /** The start-up timer's callback. */
    method ConnectionTimeoutFires(now: Instant)
      requires connectPending
      modifies this
      ensures Snapshot() == AfterConnection(old(Snapshot()), now)
    {
      connectPending := false;
      SimulateMotionDetection(false, now);
    }

    /** The click handler of the status card. */
    method StatusCardClicked(now: Instant)
      modifies this
      ensures Snapshot() == AfterToggle(old(Snapshot()), now)
    {
      SimulateMotionDetection(!motion, now);
      AddEventToLog(TOGGLED_PREFIX + BoolText(!motion), now);
    }
  }
}
