/**
 * Runs of the timer driven through its handlers only, each stating what the user sees at the end.
 * They are proved from the handlers' contracts alone.
 */
module Scenarios {
  import opened Optional
  import opened Picker
  import opened MainPage

  /** 0:03, start, three ticks: the countdown ends at exactly zero, the alarm plays once and the modal closes. */
  method ThreeSecondCountdown() returns (remaining: int, alarms: int, modalOpen: bool, ticking: bool)
    ensures remaining == 0 && alarms == 1 && !modalOpen && !ticking
  {
    var t := new Timer();
    t.Scroll(Seconds, 1);
    t.Scroll(Seconds, 1);
    t.Scroll(Seconds, 1);
    t.Start();
    var id := t.intervalRef.value;
    t.Tick(id);
    t.Tick(id);
    t.Tick(id);
    remaining, alarms, modalOpen, ticking := t.remainingTime, t.alarms, t.isModalOpen, t.liveIntervals != {};
  }

  /**
   * 1:00 preset, start, one tick, pause, a stray tick of the stopped interval, resume, one tick:
   * the pause loses and gains nothing, and the resumed interval is a new one.
   */
  method PauseAndResume() returns (atPause: int, atResume: int, afterTick: int, sameHandle: bool)
    ensures atPause == 59 && atResume == 59 && afterTick == 58 && !sameHandle
  {
    var t := new Timer();
    PresetsInRange();
    t.Hotkey(Presets[0].0, Presets[0].1);
    t.Start();
    var first := t.intervalRef.value;
    t.Tick(first);
    t.PauseStartToggle();
    atPause := t.remainingTime;
    t.Tick(first);
    t.PauseStartToggle();
    atResume := t.remainingTime;
    var second := t.intervalRef.value;
    sameHandle := first == second;
    t.Tick(second);
    afterTick := t.remainingTime;
  }

  /** 1:30 preset, start, one tick, cancel, a stray tick: no alarm, zero remaining, nothing ticking. */
  method CancelMidway() returns (remaining: int, alarms: int, modalOpen: bool, ticking: bool)
    ensures remaining == 0 && alarms == 0 && !modalOpen && !ticking
  {
    var t := new Timer();
    PresetsInRange();
    t.Hotkey(Presets[1].0, Presets[1].1);
    t.Start();
    var id := t.intervalRef.value;
    t.Tick(id);
    t.Cancel();
    t.Tick(id);
    remaining, alarms, modalOpen, ticking := t.remainingTime, t.alarms, t.isModalOpen, t.liveIntervals != {};
  }

  /**
   * 2:00 preset, start, two ticks, the 1:30 preset chosen meanwhile, reset: the remaining time is
   * the pickers' 90 seconds, not the 120 the countdown began with, and the timer waits paused.
   */
  method ResetUsesCurrentPicker() returns (remaining: int, paused: bool, ticking: bool)
    ensures remaining == 90 && paused && !ticking
  {
    var t := new Timer();
    PresetsInRange();
    t.Hotkey(Presets[2].0, Presets[2].1);
    t.Start();
    var id := t.intervalRef.value;
    t.Tick(id);
    t.Tick(id);
    t.Hotkey(Presets[1].0, Presets[1].1);
    t.ResetPauseTimer();
    remaining, paused, ticking := t.remainingTime, t.isPaused, t.liveIntervals != {};
  }

  /**
   * 0:00 on a fresh page: the remaining time is already 0, so starting does not re-run the effect,
   * and one tick takes it to -1 before the alarm plays.
   */
  method ZeroSecondStart() returns (remaining: int, alarms: int, ticking: bool)
    ensures remaining == -1 && alarms == 1 && !ticking
  {
    var t := new Timer();
    t.Start();
    var id := t.intervalRef.value;
    t.Tick(id);
    remaining, alarms, ticking := t.remainingTime, t.alarms, t.liveIntervals != {};
  }

  /**
   * After that run the remaining time is -1, so starting 0:00 again changes it to 0 and the effect
   * stops the timer at once: the alarm plays without a tick, and no interval is left.
   */
  method ZeroSecondRestart() returns (remaining: int, alarms: int, modalOpen: bool, ticking: bool)
    ensures remaining == 0 && alarms == 2 && !modalOpen && !ticking
  {
    var t := new Timer();
    t.Start();
    var id := t.intervalRef.value;
    t.Tick(id);
    t.Start();
    remaining, alarms, modalOpen, ticking := t.remainingTime, t.alarms, t.isModalOpen, t.liveIntervals != {};
  }

  /** A drag of 25 units up moves the seconds picker one step; a further 10 units does nothing. */
  method DragUpOneStep() returns (second: int, baseline: int)
    ensures second == 1 && baseline == 75
  {
    var t := new Timer();
    t.TouchStart(100);
    t.TouchMove(75, Seconds);
    t.TouchMove(65, Seconds);
    second, baseline := t.currentSecond, t.touchStartY;
  }
}
