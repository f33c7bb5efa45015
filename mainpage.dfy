/**
 * The MainPage component's countdown as a state machine. Each React state variable and ref is a
 * field; each handler is a method that applies its state updates and then, when `remainingTime`
 * changed, runs the "reached zero" effect, as React does after committing the batch.
 *
 * The browser's side is modelled by three more fields: the set of interval handles the browser
 * currently fires (`liveIntervals`), the handle the next `setInterval` returns, and the number
 * of times the alarm sound has been started.
 */
module MainPage {
  import opened Optional
  import opened Picker

  class Timer {
    // React state
    var currentMinute: int
    var currentSecond: int
    var isModalOpen: bool
    var isRunning: bool
    var isPaused: bool
    var isCanceled: bool
    var remainingTime: int
    // refs: `intervalRef.current`, `touchStartY.current`, `touchEndY.current`
    var intervalRef: Option<nat>
    var touchStartY: int
    var touchEndY: int
    // the browser
    var liveIntervals: set<nat>
    var nextIntervalId: nat
    var alarms: int

    /** The only interval the browser may fire is the one `intervalRef` holds. */
    ghost predicate HoldsOnlyRef()
      reads this
    {
      liveIntervals == {} || (intervalRef.Some? && liveIntervals == {intervalRef.value})
    }

    /**
     * A live interval exactly while running, that interval the one `intervalRef` holds, and
     * every handle handed out so far below the next one.
     */
    ghost predicate IntervalsConsistent()
      reads this
    {
      (isRunning <==> liveIntervals != {})
      && HoldsOnlyRef()
      && (intervalRef.Some? ==> intervalRef.value < nextIntervalId)
    }

    /**
     * What every handler keeps: both picker indices in range, `isCanceled` never set, the
     * intervals consistent with `isRunning`; the modal is open while running, and while it is
     * open the timer is either paused or running, never both or neither, and the remaining
     * time is not negative; it never goes below -1.
     */
    ghost predicate Valid()
      reads this
    {
      InRange(currentMinute) && InRange(currentSecond)
      && !isCanceled
      && IntervalsConsistent()
      && (isRunning ==> isModalOpen)
      && (isModalOpen ==> isPaused != isRunning && remainingTime >= 0)
      && remainingTime >= -1
    }

    /** The component's first render. */
    constructor ()
      ensures Valid()
      ensures currentMinute == 0 && currentSecond == 0
      ensures !isModalOpen && !isRunning && !isPaused && !isCanceled && remainingTime == 0
      ensures intervalRef == None && touchStartY == 0 && touchEndY == 0
      ensures liveIntervals == {} && alarms == 0
    {
      currentMinute, currentSecond := 0, 0;
      isModalOpen, isRunning, isPaused, isCanceled := false, false, false, false;
      remainingTime := 0;
      intervalRef := None;
      touchStartY, touchEndY := 0, 0;
      liveIntervals, nextIntervalId, alarms := {}, 1, 0;
    }

    /** With the invariant, at most one interval is ever live, and it is the one in `intervalRef`. */
    lemma AtMostOneInterval()
      requires Valid()
      ensures |liveIntervals| <= 1
      ensures isRunning ==> intervalRef.Some? && liveIntervals == {intervalRef.value}
      ensures !isRunning ==> liveIntervals == {}
    {
    }

    /** The browser's `setInterval`: registers and returns a new handle. */
    method SetInterval() returns (id: nat)
      modifies this`liveIntervals, this`nextIntervalId
      ensures id == old(nextIntervalId) && nextIntervalId == id + 1
      ensures liveIntervals == old(liveIntervals) + {id}
    {
      id := nextIntervalId;
      nextIntervalId := nextIntervalId + 1;
      liveIntervals := liveIntervals + {id};
    }

    /** The browser's `clearInterval`: stops the given handle; `null` and stopped handles are ignored. */
    method ClearInterval(h: Option<nat>)
      modifies this`liveIntervals
      ensures liveIntervals == if h.Some? then old(liveIntervals) - {h.value} else old(liveIntervals)
    {
      if h.Some? {
        liveIntervals := liveIntervals - {h.value};
      }
    }

    /** `startTimer`: only when not running, mark running and register one interval. */
    method StartTimer()
      requires IntervalsConsistent()
      modifies this`isRunning, this`intervalRef, this`liveIntervals, this`nextIntervalId
      ensures IntervalsConsistent()
      ensures isRunning
      ensures old(isRunning) ==> unchanged(this`isRunning, this`intervalRef, this`liveIntervals, this`nextIntervalId)
      ensures !old(isRunning) ==>
        intervalRef == Some(old(nextIntervalId)) && liveIntervals == {old(nextIntervalId)}
        && nextIntervalId == old(nextIntervalId) + 1
    {
      if !isRunning {
        isRunning := true;
        var id := SetInterval();
        intervalRef := Some(id);
      }
    }

    /** `pauseTimer`: mark not running, stop the interval and forget its handle. */
    method PauseTimer()
      requires IntervalsConsistent()
      modifies this`isRunning, this`intervalRef, this`liveIntervals
      ensures IntervalsConsistent()
      ensures !isRunning && intervalRef == None && liveIntervals == {}
    {
      isRunning := false;
      ClearInterval(intervalRef);
      intervalRef := None;
    }

    /**
     * The effect on `[remainingTime]`: once the remaining time is at or below zero while running,
     * stop the interval, mark not running, close the modal and play the alarm.
     */
    method ExpiryEffect()
      requires HoldsOnlyRef()
      modifies this`liveIntervals, this`isRunning, this`isModalOpen, this`alarms, this`isCanceled
      ensures old(remainingTime <= 0 && isRunning) ==>
        liveIntervals == {} && !isRunning && !isModalOpen && alarms == old(alarms) + 1 && !isCanceled
      ensures !old(remainingTime <= 0 && isRunning) ==> unchanged(this`liveIntervals, this`isRunning, this`isModalOpen, this`alarms, this`isCanceled)
    {
      if remainingTime <= 0 && isRunning {
        ClearInterval(intervalRef);
        isRunning := false;
        isModalOpen := false;
        alarms := alarms + 1;
        isCanceled := false;
      }
    }

    /** After a handler's batch is committed, React re-runs the effect only if `remainingTime` changed. */
    method AfterRender(prevRemaining: int)
      requires HoldsOnlyRef()
      modifies this`liveIntervals, this`isRunning, this`isModalOpen, this`alarms, this`isCanceled
      ensures old(remainingTime != prevRemaining && remainingTime <= 0 && isRunning) ==>
        liveIntervals == {} && !isRunning && !isModalOpen && alarms == old(alarms) + 1 && !isCanceled
      ensures !old(remainingTime != prevRemaining && remainingTime <= 0 && isRunning) ==> unchanged(this`liveIntervals, this`isRunning, this`isModalOpen, this`alarms, this`isCanceled)
    {
      if remainingTime != prevRemaining {
        ExpiryEffect();
      }
    }

    /**
     * `handleStart`: the remaining time becomes the picker's total, the modal opens, the pause
     * flag clears and the timer starts. If that total is 0 and differs from the previous remaining
     * time, the effect stops the timer at once and the alarm plays.
     */
    method Start()
      requires Valid()
      modifies this`remainingTime, this`isModalOpen, this`isPaused, this`isRunning, this`intervalRef,
        this`liveIntervals, this`nextIntervalId, this`alarms, this`isCanceled
      ensures Valid()
      ensures remainingTime == TotalSeconds(currentMinute, currentSecond) && !isPaused
      ensures old(isRunning) ==> intervalRef == old(intervalRef) && nextIntervalId == old(nextIntervalId)
      ensures !old(isRunning) ==> intervalRef == Some(old(nextIntervalId)) && nextIntervalId == old(nextIntervalId) + 1
      ensures remainingTime == 0 && old(remainingTime) != 0 ==>
        !isRunning && !isModalOpen && liveIntervals == {} && alarms == old(alarms) + 1
      ensures !(remainingTime == 0 && old(remainingTime) != 0) ==>
        isRunning && isModalOpen && alarms == old(alarms) && liveIntervals == {intervalRef.value}
    {
      var prev := remainingTime;
      remainingTime := TotalSeconds(currentMinute, currentSecond);
      isModalOpen := true;
      isPaused := false;
      StartTimer();
      AfterRender(prev);
    }

    /**
     * The interval callback, fired by the browser for handle `id`. A handle that is not live never
     * fires, so nothing changes; a live one takes one second off and the effect then decides
     * whether the countdown has ended.
     */
    method Tick(id: nat)
      requires Valid()
      modifies this`remainingTime, this`liveIntervals, this`isRunning, this`isModalOpen, this`alarms, this`isCanceled
      ensures Valid()
      ensures id !in old(liveIntervals) ==> unchanged(this`remainingTime, this`liveIntervals, this`isRunning, this`isModalOpen, this`alarms, this`isCanceled)
      ensures id in old(liveIntervals) ==> remainingTime == old(remainingTime) - 1
      ensures id in old(liveIntervals) && remainingTime <= 0 ==>
        !isRunning && !isModalOpen && liveIntervals == {} && alarms == old(alarms) + 1
      ensures id in old(liveIntervals) && remainingTime > 0 ==>
        isRunning && isModalOpen && liveIntervals == old(liveIntervals) && alarms == old(alarms)
    {
      if id in liveIntervals {
        var prev := remainingTime;
        remainingTime := remainingTime - 1;
        AfterRender(prev);
      }
    }

    /**
     * `handlePauseStartToggle`, reachable from the modal's second button only: flips the pause flag,
     * then pauses if it was not paused and starts otherwise. The remaining time is not touched.
     */
    method PauseStartToggle()
      requires Valid() && isModalOpen
      modifies this`isPaused, this`isRunning, this`intervalRef, this`liveIntervals, this`nextIntervalId
      ensures Valid()
      ensures isPaused == !old(isPaused)
      ensures !old(isPaused) ==>
        !isRunning && intervalRef == None && liveIntervals == {} && nextIntervalId == old(nextIntervalId)
      ensures old(isPaused) ==>
        isRunning && intervalRef == Some(old(nextIntervalId)) && liveIntervals == {old(nextIntervalId)}
        && nextIntervalId == old(nextIntervalId) + 1
    {
      var wasPaused := isPaused;
      isPaused := !wasPaused;
      if !wasPaused {
        PauseTimer();
      } else {
        StartTimer();
      }
    }

    /**
     * `resetPauseTimer`: paused, not running, no interval, and the remaining time recomputed from
     * the pickers' current values. The effect re-runs but finds the timer not running.
     */
    method ResetPauseTimer()
      requires Valid()
      modifies this`isPaused, this`isRunning, this`intervalRef, this`liveIntervals, this`remainingTime,
        this`isModalOpen, this`alarms, this`isCanceled
      ensures Valid()
      ensures isPaused && !isRunning && intervalRef == None && liveIntervals == {}
      ensures remainingTime == TotalSeconds(currentMinute, currentSecond)
      ensures isModalOpen == old(isModalOpen) && alarms == old(alarms)
    {
      var prev := remainingTime;
      isPaused := true;
      isRunning := false;
      ClearInterval(intervalRef);
      intervalRef := None;
      remainingTime := TotalSeconds(currentMinute, currentSecond);
      AfterRender(prev);
    }

    /**
     * `handleCancel`: stop the interval (the stale handle stays in `intervalRef`), mark not running,
     * close the modal, zero the remaining time. The effect finds the timer not running, so no alarm.
     */
    method Cancel()
      requires Valid()
      modifies this`liveIntervals, this`isRunning, this`isModalOpen, this`remainingTime, this`alarms, this`isCanceled
      ensures Valid()
      ensures !isRunning && !isModalOpen && remainingTime == 0 && liveIntervals == {}
      ensures alarms == old(alarms)
    {
      var prev := remainingTime;
      ClearInterval(intervalRef);
      isRunning := false;
      isModalOpen := false;
      remainingTime := 0;
      AfterRender(prev);
    }

    /** The cleanup of the mount effect: stop whatever interval `intervalRef` holds. */
    method Unmount()
      requires Valid()
      modifies this`liveIntervals
      ensures liveIntervals == {}
    {
      ClearInterval(intervalRef);
    }

    /** `handleScroll`: move the index of one picker by `delta`, pinned to the picker's ends. */
    method Scroll(axis: Axis, delta: int)
      requires Valid()
      modifies this`currentMinute, this`currentSecond
      ensures Valid()
      ensures axis == Minutes ==> currentMinute == Clamp(old(currentMinute), delta) && currentSecond == old(currentSecond)
      ensures axis == Seconds ==> currentSecond == Clamp(old(currentSecond), delta) && currentMinute == old(currentMinute)
    {
      if axis == Minutes {
        currentMinute := Clamp(currentMinute, delta);
      } else {
        currentSecond := Clamp(currentSecond, delta);
      }
    }

    /** `handleTouchStart`: the touch's vertical position becomes the baseline. */
    method TouchStart(clientY: int)
      requires Valid()
      modifies this`touchStartY
      ensures Valid()
      ensures touchStartY == clientY
    {
      touchStartY := clientY;
    }

    /**
     * `handleTouchMove`: when the finger is more than the threshold away from the baseline, move
     * the picker one step (up for a finger moved up) and make the current position the baseline;
     * otherwise leave both the indices and the baseline alone.
     */
    method TouchMove(clientY: int, axis: Axis)
      requires Valid()
      modifies this`touchEndY, this`touchStartY, this`currentMinute, this`currentSecond
      ensures Valid()
      ensures touchEndY == clientY
      ensures Abs(old(touchStartY) - clientY) <= SwipeThreshold ==>
        touchStartY == old(touchStartY) && currentMinute == old(currentMinute) && currentSecond == old(currentSecond)
      ensures Abs(old(touchStartY) - clientY) > SwipeThreshold ==>
        var step := if old(touchStartY) - clientY > 0 then 1 else -1;
        touchStartY == clientY
        && (axis == Minutes ==> currentMinute == Clamp(old(currentMinute), step) && currentSecond == old(currentSecond))
        && (axis == Seconds ==> currentSecond == Clamp(old(currentSecond), step) && currentMinute == old(currentMinute))
    {
      touchEndY := clientY;
      var step := SwipeStep(touchStartY, touchEndY);
      if step.Some? {
        Scroll(axis, step.value);
        touchStartY := touchEndY;
      }
    }

    /** `handleHotkey`: set both pickers to a preset pair, whatever they showed before. */
    method Hotkey(minute: int, second: int)
      requires Valid() && InRange(minute) && InRange(second)
      modifies this`currentMinute, this`currentSecond
      ensures Valid()
      ensures currentMinute == minute && currentSecond == second
    {
      currentMinute := minute;
      currentSecond := second;
    }
  }
}
