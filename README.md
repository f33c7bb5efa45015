# Sports interval timer: countdown state machine and `MM:SS` display

A Dafny model of the countdown widget of a small React app for timing sports intervals. The user
picks minutes and seconds on two scrolling pickers (by touch drags or preset buttons), starts a
countdown, pauses and resumes it, resets or cancels it, and hears an alarm when it runs out. A
modal shows the remaining time as `MM:SS` with a cancel button and a pause-or-resume button.

The model has five modules:

- `MainPage` (`mainpage.dfy`): the `MainPage` component as a class `Timer`. Its fields are the
  component's React state (`currentMinute`, `currentSecond`, `isModalOpen`, `isRunning`,
  `isPaused`, `isCanceled`, `remainingTime`) and its refs (`intervalRef`, `touchStartY`,
  `touchEndY`). There is one method per handler. The browser appears as three more fields:
  the set of live interval handles, the next handle `setInterval` returns, and the alarm count.
  Each handler applies its state updates as one batch. If `remainingTime` changed, it then runs
  the "reached zero" effect, because the effect's dependency list is `[remainingTime]`.
  `Valid()` is the invariant every handler keeps:
  - both picker indices are within 0..59;
  - `isCanceled` stays false;
  - an interval is live exactly while running, and it is the one `intervalRef` holds;
  - the modal is open whenever the timer is running;
  - while the modal is open, the timer is paused or running but never both, and the remaining
    time is not negative;
  - the remaining time never drops below -1.
- `Picker` (`picker.dfy`): the pure parts of the pickers. This covers the pinned scroll step,
  the minutes-and-seconds total, the 20-unit swipe threshold and the twelve presets.
- `Modal` (`modal.dfy`): the `TimerModal` component. `FormatTime` models `formatTime` for every
  safe integer (magnitude below 2^53), negative ones included. The timer itself only reaches
  -1..3599. `ParseTime` reads a display back, and `Render` gives what
  the component renders for its props.
- `JsNumber` (`jsnumber.dfy`): the JavaScript primitives `formatTime` uses. These are
  `Math.floor` division, the truncating `%`, integer `toString()` and `padStart`. `Value` reads
  decimal digits back and is the partner of `Digits`.
- `Scenarios` (`scenarios.dfy`): complete runs through the handlers, each proved from the
  handlers' contracts alone.

Behaviour of the code as written. The model keeps all of it:

- Reset recomputes the remaining time from the pickers' *current* values, not from the duration
  the countdown started with (`ResetUsesCurrentPicker`). The Modal component never uses its
  `reset` prop, so no button calls reset.
- Expiry tests `remainingTime <= 0` and only re-runs when `remainingTime` changes. On a fresh
  page the remaining time is already 0, so a 0:00 start does not re-run the effect. One tick then
  takes the time to -1 before the alarm, and the display briefly reads `-1:-1`
  (`ZeroSecondStart`, `FormatTimeMinusOne`). A later 0:00 start changes -1 to 0 and expires at
  once, with no tick (`ZeroSecondRestart`).
- Start while already running leaves the existing interval alone. It still reloads the remaining
  time from the pickers.
- Cancel and expiry stop the interval but leave the stale handle in `intervalRef`. Nothing reads
  that handle except later `clearInterval` calls, which ignore it. Cancel does not mark anything
  as canceled: `isCanceled` is only ever set to `false`.

## Model

| member | source | states |
|---|---|---|
| `MainPage.Timer.constructor` | src/MainPage/MainPage.jsx:11-26 | the first render: pickers at 0:00, every flag false, 0 remaining, no interval, baseline 0; the invariant holds |
| `MainPage.Timer.AtMostOneInterval` | src/MainPage/MainPage.jsx:45-59 | under the invariant at most one interval is live; while running it is exactly the one `intervalRef` holds, and otherwise none is |
| `MainPage.Timer.SetInterval` | src/MainPage/MainPage.jsx:48 | the returned handle is the next unused number, the counter moves past it, and it joins the live handles |
| `MainPage.Timer.ClearInterval` | src/MainPage/MainPage.jsx:57 | the given handle is no longer live and no other handle is touched; `null` leaves the live set as it was |
| `MainPage.Timer.StartTimer` | src/MainPage/MainPage.jsx:45-52 | afterwards running; if it was already running nothing changes (no second interval); otherwise exactly one new interval is live and `intervalRef` holds it |
| `MainPage.Timer.PauseTimer` | src/MainPage/MainPage.jsx:55-59 | not running, no live interval, `intervalRef` null; the remaining time is outside its frame |
| `MainPage.Timer.Start` | src/MainPage/MainPage.jsx:29-35 | remaining time = picker minute*60 + second and not paused; the interval is reused if running, else a new one; if that total is 0 and differs from the previous remaining time the effect expires the timer at once (one alarm, modal closed, no interval), otherwise running with the modal open and no alarm |
| `MainPage.Timer.Tick` | src/MainPage/MainPage.jsx:48-50 | a handle that is not live changes nothing; a live one lowers the remaining time by exactly 1, then either expires (at or below 0: one alarm, modal closed, no interval) or keeps running with the same interval and no alarm; the invariant keeps the time at or above -1 |
| `MainPage.Timer.ExpiryEffect` | src/MainPage/MainPage.jsx:75-82 | when the remaining time is at or below 0 while running: no interval left, not running, modal closed, exactly one more alarm, `isCanceled` false; otherwise nothing changes |
| `MainPage.Timer.AfterRender` | src/MainPage/MainPage.jsx:83 | the effect acts only when `remainingTime` differs from the previous render and then as `ExpiryEffect`; otherwise nothing changes |
| `MainPage.Timer.PauseStartToggle` | src/MainPage/MainPage.jsx:38-42 | the pause flag flips; from running it pauses (no interval, `intervalRef` null), from paused it resumes with exactly one new interval; the remaining time is outside its frame, so a pause/resume pair preserves it exactly |
| `MainPage.Timer.ResetPauseTimer` | src/MainPage/MainPage.jsx:61-67 | paused, not running, no interval, `intervalRef` null, remaining time = current picker minute*60 + second; the modal state and the alarm count do not change |
| `MainPage.Timer.Cancel` | src/MainPage/MainPage.jsx:86-91 | not running, modal closed, remaining time 0, no live interval, and no alarm, because the effect finds the timer not running |
| `MainPage.Timer.Unmount` | src/MainPage/MainPage.jsx:70-72 | no live interval remains after the component goes away |
| `MainPage.Timer.Scroll` | src/MainPage/MainPage.jsx:98-104 | only the chosen picker moves, to its index plus `delta` pinned to 0..59; the other picker is unchanged |
| `MainPage.Timer.TouchStart` | src/MainPage/MainPage.jsx:106-108 | the touch position becomes the baseline; the invariant is kept |
| `MainPage.Timer.TouchMove` | src/MainPage/MainPage.jsx:110-120 | the end position is recorded; more than 20 units from the baseline moves the chosen picker exactly one pinned step (+1 when the finger moved up, -1 when down) and makes the position the new baseline; otherwise the indices and the baseline are unchanged |
| `MainPage.Timer.Hotkey` | src/MainPage/MainPage.jsx:147-150 | both pickers take the given pair, whatever they held before |
| `Picker.Clamp` | src/MainPage/MainPage.jsx:100-102 | the result is always in 0..59; equals `prev + delta` when that is in range, 0 below it, 59 above it |
| `Picker.ClampPinsEnds` | src/MainPage/MainPage.jsx:100-102 | stepping out past either end stays put (no wrap-around); stepping inward moves by one |
| `Picker.TotalSeconds` | src/MainPage/MainPage.jsx:30 | for picker values the total is within 0..3599 |
| `Picker.TotalSecondsLossless` | src/MainPage/MainPage.jsx:66 | the total's whole minutes and leftover seconds are the picker values again |
| `Picker.SwipeStep` | src/MainPage/MainPage.jsx:112-115 | a step exists exactly when the distance exceeds 20; it is +1 exactly when the start is more than 20 above the end in value, -1 exactly when it is more than 20 below |
| `Picker.PresetsInRange` | src/MainPage/MainPage.jsx:209-222 | there are twelve presets and each is a pair of valid picker indices |
| `JsNumber.DigitChar` | src/MainPage/Modal.jsx:11-13 | a digit character whose value is the given digit |
| `JsNumber.Digits` | src/MainPage/Modal.jsx:11-13 | `toString()` of a non-negative integer: at least one digit, all digits, a leading 0 exactly for 0, one digit exactly below 10 and at most two below 100 |
| `JsNumber.ValueOfDigits` | src/MainPage/Modal.jsx:11-13 | reading the digits of `n` back gives `n` |
| `JsNumber.ValueIgnoresLeadingZeros` | src/MainPage/Modal.jsx:11-13 | prefixing zeros keeps a digit string's value |
| `JsNumber.ZeroPadKeepsValue` | src/MainPage/Modal.jsx:11-13 | `padStart(n, "0")` of a digit string is a digit string with the same value |
| `JsNumber.PadStart` | src/MainPage/Modal.jsx:11-13 | the result has length max(n, length of s), ends with `s`, and is only fill before it |
| `JsNumber.FloorDiv` | src/MainPage/Modal.jsx:9 | `Math.floor(a / b)`: the largest `q` with `b*q <= a` |
| `JsNumber.Rem` | src/MainPage/Modal.jsx:10 | JavaScript `%`: in 0..b-1 for non-negative `a`, in -(b-1)..0 for negative `a`, and `a` is `b` times the truncated quotient plus it |
| `JsNumber.ToString` | src/MainPage/Modal.jsx:11-13 | the string reads back as the number: all digits worth `i` for `i >= 0`; otherwise a minus sign followed by at least one digit, the digits worth `-i` |
| `Modal.JoinFields` | src/MainPage/Modal.jsx:11-13 | two zero-padded fields joined by ":" put the colon third from the end with each field readable back |
| `Modal.FormatTimeFields` | src/MainPage/Modal.jsx:8-14 | for t >= 0: at least 5 characters, ':' third from the end, a digit minutes field worth `t / 60` (floor) and a two-digit seconds field worth `t % 60` |
| `Modal.ParseTimeOfFields` | src/MainPage/Modal.jsx:11-13 | a digit field, ':' and two digits read back as minutes*60 + seconds |
| `Modal.FormatParseRoundTrip` | src/MainPage/Modal.jsx:8-14 | round trip: reading the display of any t >= 0 back gives t |
| `Modal.FormatTimeFixedWidth` | src/MainPage/Modal.jsx:11-13 | for 0 <= t <= 3599 the display is exactly 5 characters with ':' at index 2, and MM*60 + SS = t |
| `Modal.FormatTimeInjective` | src/MainPage/Modal.jsx:8-14 | two non-negative times with the same display are equal |
| `Modal.FormatTimeSign` | src/MainPage/Modal.jsx:8-14 | every display is at least 5 characters and starts with '-' exactly when the time is negative |
| `Modal.FormatTimeNegative` | src/MainPage/Modal.jsx:9-10 | a negative time displays with a leading '-' and does not read back as a time |
| `Modal.FormatTimeExample` | src/MainPage/Modal.jsx:8-14 | 65 seconds display as "01:05" |
| `Modal.FormatTimeMinusOne` | src/MainPage/Modal.jsx:8-14 | -1 displays as "-1:-1" |
| `Modal.Render` | src/MainPage/Modal.jsx:3-29 | nothing is rendered exactly when `is_on` is false; otherwise two buttons, cancel first, the second resume exactly when paused and pause exactly when not; for a time >= 0 the display reads back as that time; for a negative time (one tick past zero) it starts with '-' and reads back as no time |
| `Scenarios.ThreeSecondCountdown` | src/MainPage/MainPage.jsx:29-83 | 0:03, start, three ticks: remaining exactly 0, one alarm, modal closed, nothing ticking |
| `Scenarios.PauseAndResume` | src/MainPage/MainPage.jsx:38-59 | 1:00, start, tick, pause, stray tick, resume: 59 both at the pause and at the resume, 58 after the next tick, and the resumed interval is a new handle |
| `Scenarios.CancelMidway` | src/MainPage/MainPage.jsx:86-91 | 1:30, start, tick, cancel, stray tick: remaining 0, no alarm, modal closed, nothing ticking |
| `Scenarios.ResetUsesCurrentPicker` | src/MainPage/MainPage.jsx:61-67 | a 2:00 countdown reset after the 1:30 preset was chosen holds 90 seconds, paused, with nothing ticking |
| `Scenarios.ZeroSecondStart` | src/MainPage/MainPage.jsx:75-83 | 0:00 on a fresh page ticks once to -1, then the alarm plays once and nothing ticks |
| `Scenarios.ZeroSecondRestart` | src/MainPage/MainPage.jsx:29-35 | a second 0:00 start after that expires immediately: remaining 0, a second alarm, modal closed, nothing ticking |
| `Scenarios.DragUpOneStep` | src/MainPage/MainPage.jsx:106-120 | a 25-unit upward drag moves the seconds picker one step and moves the baseline to the finger; a further 10 units changes nothing |

## Left out

- Audio: `playSound` (src/MainPage/MainPage.jsx:93-96) is a call into the browser. The model counts alarms started in `alarms` instead.
- Timing: `setInterval` and `clearInterval` are modelled as a set of live handles and a handle counter. A tick is an explicit `Tick(id)` call, not a one-second clock.
- React scheduling: each handler's updates are applied as one batch, after which the effect runs. Two events in one render would see stale state; the model does not capture that, since React re-renders between discrete user events.
- Numbers are unbounded integers. JavaScript numbers are doubles, so `toString()` switches to exponent notation from 1e21 and `Math.floor(t / 60)` is no longer the exact quotient beyond 2^53. The model is exact for safe integers only; the remaining time stays within -1..3599.
- Touch positions are integers. Browsers report `clientY` as a fractional number of pixels.
- DOM wiring is left out: listener registration and removal (src/MainPage/MainPage.jsx:122-145), `preventDefault` (:119), and all JSX and CSS.
- The unused `intervalId` state (src/MainPage/MainPage.jsx:18) is left out.
- The label arrays (src/MainPage/MainPage.jsx:8-9) are represented only by their length, 60.
- `handleScroll`'s third case, a `type` that is neither "minutes" nor "seconds", is left out. It does nothing and no caller reaches it, so `Axis` has only the two values.
- MainPage.Timer.Hotkey: requires both values to be in 0..59. `handleHotkey` does not clamp, but its only callers are the preset buttons, and `PresetsInRange` proves every preset is in range.
- MainPage.Timer.PauseStartToggle: requires the modal to be open. The toggle is wired only to the modal's second button, and the modal renders nothing when closed (src/MainPage/Modal.jsx:4).
- MainPage.Timer.Unmount: does not re-establish `Valid()`, because the component no longer exists afterwards.
