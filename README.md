# Security dashboard motion/recording controller, in Dafny

This project models the controller in `script.js` of a security-dashboard page.
It covers four things:

- whether motion is currently detected;
- a simulated recording, shown by a recording indicator, the video element and a
  "no feed" overlay;
- a single-shot stop timer that ends the recording ten seconds after motion clears;
- an on-screen event log, newest entry first, capped at 20 entries.

Three modules hold the model:

- `Timestamp` (`timestamp.dfy`) renders the log timestamp `[Y-MM-DD HH:MM:SS]`.
  Each of month, day, hour, minute and second goes through `padStart(2, '0')`.
  The year is printed as it is. The parser `ParseTimestamp` is a left inverse of
  `Format`: every date a `Date` can produce is read back unchanged.
- `EventLog` (`event_log.dfy`) holds the capped, newest-first list of
  `addEventToLog`. A closed form says what any number of additions leave.
- `MotionController` (`motion_controller.dfy`) treats the handlers as functions on
  a `View`, the whole state as a value. Those functions are the specification.
  The class `Dashboard` keeps the same state in fields. Its methods change the
  fields step by step, as the handlers do, and each method is proved to match its
  function. `Step` and `Run` replay any stream of stimuli: motion reports, the two
  timers coming due, and clicks on the status card. Lemmas about `Run` state the
  reachable-state invariant and the scenarios.

The clock and the timers are abstracted:

- each handler run receives an `Instant`, which holds `Date.now()` and the local
  date fields of `new Date()`;
- an armed timer is a flag (`pendingStop`, `connectPending`);
- a timer coming due is an explicit event or method call. A timer that is not armed
  runs nothing.

`liveVideo.srcObject` is never assigned in `script.js`, so the test at
`script.js:57` is always true (`SRC_OBJECT_NULL`). `startRecording` therefore always
shows the video, hides the overlay and logs "Live video stream active.".

The click handler logs `Manually toggled motion to: ${!isMotionDetected}` after the
variable has already flipped. The entry therefore names the state before the click,
and the model keeps that.

When motion is detected, the code logs two entries: "Motion Detected. Recording
started." and then, from `startRecording`, "Live video stream active.". The model
keeps both, in that order.

## Model

| member | source | states |
|---|---|---|
| `Timestamp.NatToString` | script.js:18 | `toString()` of a non-negative number is its decimal digits with no leading zero, reads back as the number, and has one digit exactly below 10 and at most two exactly below 100 |
| `Timestamp.IntToString` | script.js:18 | the year is printed as its decimal value: a minus sign only when it is negative, then the digits of its magnitude with no leading zero (no padding) |
| `Timestamp.PadStart` | script.js:18 | `padStart(width, fill)` keeps a string at least `width` long unchanged; otherwise it puts fill characters in front until the length is `width` |
| `Timestamp.Pad2` | script.js:18 | a field is at least two digits, a leading `'0'` is added below 10, values of 10 and above are unchanged, the result is exactly two characters iff the value is below 100, and its digits read back as the value |
| `Timestamp.Tail` | script.js:18 | the part after the year is at least 16 characters, and exactly 16 for calendar dates |
| `Timestamp.Format` | script.js:18 | the timestamp opens with `[`, continues with the unpadded year and a `-`, closes with `]`, and for calendar dates is exactly 17 characters longer than the year |
| `Timestamp.IntRoundTrip` | script.js:18 | the printed year reads back as the year |
| `Timestamp.FieldRoundTrip` | script.js:18 | a separator and a padded field below 100 read back as the field's value |
| `Timestamp.TailRoundTrip` | script.js:18 | the part after the year reads back as `getMonth()+1`, day, hours, minutes and seconds |
| `Timestamp.FormatRoundTrip` | script.js:18 | every date in the ranges of `Date`'s getters is recovered from its timestamp, with the month shown one-based |
| `Timestamp.FormatInjective` | script.js:18 | two calendar dates with the same timestamp are the same date |
| `EventLog.Prepend` | script.js:21-25 | the new entry comes first. Below 20 entries every older entry stays behind it in order. At 20 or more entries exactly the last (oldest) is dropped. The log never grows past 20 |
| `EventLog.PrependAll` | script.js:16-26 | after successive calls of `addEventToLog` the last entry added is first; with no calls the log is unchanged |
| `EventLog.Newest` | script.js:23-24 | the cap keeps the first 20 entries, or all of them when there are fewer |
| `EventLog.NewestOfFront` | script.js:21-25 | capping before or after putting entries in front gives the same log |
| `EventLog.PrependAllKeepsNewest` | script.js:16-26 | logging any sequence of entries on a log of at most 20 leaves the 20 most recent: the new ones newest first, then the old ones in their order |
| `EventLog.PrependAllBounded` | script.js:22-25 | after any number of entries the log holds `min(old + new, 20)` entries |
| `MotionController.BoolText` | script.js:150 | the template literal renders `true` as "true" and `false` as "false", and only so |
| `MotionController.Stamp` | script.js:17-20 | the entry carries the message and the local date at `now` |
| `MotionController.Entry.Timestamp` | script.js:18-20 | the timestamp text shown before the message reads back as the entry's date, for every calendar date |
| `MotionController.Logged` | script.js:16-26 | `addEventToLog` puts the new entry, with its message and date, first in the log as `Prepend` says, and changes nothing but the log |
| `MotionController.Loaded` | script.js:9-11 | at start-up no motion is detected, no stop is armed, there is no start time, the log holds exactly "Dashboard Loaded. Awaiting system connection.", the connection timer is armed, and an idle page satisfies the invariant |
| `MotionController.Started` | script.js:55-90 | `startRecording` cancels any armed stop, shows the indicator and the video, hides the overlay, stamps the start time with `now`, logs "Live video stream active.", and leaves motion and the status display alone |
| `MotionController.StopArmed` | script.js:93-95 | `stopRecordingAfterDelay` leaves exactly one stop armed, replacing any earlier one, and changes nothing else |
| `MotionController.AfterMotion` | script.js:29-52 | with motion newly detected: motion is set, the stop is cancelled, the status card is active, indicator and video are shown and the overlay hidden, the start time is `now`, and the log gains "Motion Detected…" then "Live video stream active." (the latter first). With motion newly cleared: only motion, the status display and the log change, the log gains "Motion Cleared…", and a stop is armed. With "no motion" again: only the status display is re-asserted. With motion again: nothing changes. Each case keeps the invariant |
| `MotionController.AfterStopFired` | script.js:95-101 | when the armed stop fires: indicator and video hidden, overlay shown, start time cleared, "No motion for 10s. Recording stopped." logged, motion and status untouched, invariant kept |
| `MotionController.AfterConnection` | script.js:108-110 | the start-up `simulateMotionDetection(false)` leaves motion false and the status card inactive. Without motion it adds no log entry. If a click turned motion on before it, it clears motion, arms a stop and logs "Motion Cleared…", undoing the click |
| `MotionController.AfterToggle` | script.js:148-151 | a click always flips motion and takes a real transition (detecting arms recording, clearing arms a stop). The newest entry is "Manually toggled motion to: X" with X the state before the click, behind the transition's own entries. The invariant is kept |
| `MotionController.Step` | script.js:29-151 | every handler run keeps the invariant; a stop timer or connection timer coming due while not armed changes nothing |
| `MotionController.Run` | script.js:29-151 | every run of stimuli from a consistent state ends in a consistent state |
| `MotionController.ReachableStatesConsistent` | script.js:9-151 | from an idle page, after any stimuli: a stop is armed only while motion is absent, and the indicator is on exactly when motion is present or a stop is armed. A start time exists exactly while the indicator is on, and the log holds at most 20 entries |
| `MotionController.RepeatedNoMotionIsQuiet` | script.js:45-51 | any number of "no motion" reports while motion is absent leave the log, the armed stop, the recording display and the start time unchanged, and only re-assert the "no motion" status |
| `MotionController.RedetectionCancelsStop` | script.js:30-56 | motion reported while a stop is armed cancels it; when the stop would have come due nothing happens and recording continues |
| `MotionController.LoadDetectClearExpire` | script.js:29-110 | load, connect, detect, clear and expire ends idle, with the log reading "stopped", "cleared", "stream active", "detected", "loaded" |
| `MotionController.ClearThenRedetect` | script.js:29-101 | motion clearing and returning before the stop is due ends recording with no "Recording stopped" entry |
| `MotionController.Dashboard.constructor` | script.js:9-110 | the page-load sequence yields the state `Loaded` describes |
| `MotionController.Dashboard.AddEventToLog` | script.js:16-26 | the log field becomes `Prepend` of the old log and nothing else changes |
| `MotionController.Dashboard.SimulateMotionDetection` | script.js:29-52 | the fields change as `AfterMotion` says |
| `MotionController.Dashboard.StartRecording` | script.js:55-90 | the fields change as `Started` says |
| `MotionController.Dashboard.StopRecordingAfterDelay` | script.js:93-102 | exactly one stop is armed and nothing else changes |
| `MotionController.Dashboard.RecordingTimeoutFires` | script.js:95-101 | the fields change as `AfterStopFired` says |
| `MotionController.Dashboard.ConnectionTimeoutFires` | script.js:108-110 | the fields change as `AfterConnection` says |
| `MotionController.Dashboard.StatusCardClicked` | script.js:148-151 | the fields change as `AfterToggle` says |

## Left out

- DOM work is reduced to flags and texts. The model omits element lookups, the `innerHTML` icon markup and `<li>` creation (script.js:2-7, 19-20, 32, 39, 48). What remains: the status card's `active` class (`statusActive`), the `systemMessage` text, and whether the indicator, the video and the overlay are displayed.
- The model assumes `eventLogList` starts with no child nodes. Then `children.length` (script.js:23) counts every child, and `removeChild(lastChild)` (script.js:24) always removes the oldest entry. Whitespace, comments or placeholder items in the HTML list would be removed first instead. The list would then settle at more than 20 nodes. The HTML is not part of this model.
- The page's initial display comes from the HTML, and the HTML is not part of this model. The constructor takes it as a `Page` parameter, and the invariant assumes an idle page.
- Real time is not modelled. The 10-second and 2-second delays (script.js:101, 110) cannot be checked against a clock. Each timer is a flag, and its firing is an event.
- `recordingTimeout` is not modelled as a timer handle. The flag `pendingStop` stands for "a stop timer is armed and has not yet fired". Clearing a timer and re-arming it are assignments to that flag.
- Each handler run receives one `Instant`. The model ignores that the several `new Date()` and `Date.now()` calls inside one handler could read different times.
- A log entry keeps the local date fields, not the rendered string. Its text is `Entry.Timestamp()`, which is `Format`, and `FormatInjective` shows no information is lost. The translation from epoch milliseconds to local date fields (time zones) is not modelled.
- The `type` parameter of `addEventToLog` (script.js:16) is never used, and the model omits it.
- The commented-out camera code (script.js:62-78) is not modelled, because it never runs.
- The commented-out WebSocket/REST/MQTT integration (script.js:113-144) is not modelled, because it never runs and would be network I/O.
- The sample video URL and looping (script.js:155-158) are media loading, and the model omits them.
