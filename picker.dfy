/**
 * The pure parts of the MainPage component's duration pickers: the bound of each picker, the
 * pinned scroll step, the minutes-and-seconds total, the swipe threshold and the preset list.
 */
module Picker {
  import opened Optional

  /** Both pickers list the labels "00" to "59". */
  const PickerLength: nat := 60
  const MaxIndex: int := PickerLength - 1
  /** Vertical distance a touch must travel before it counts as one step. */
  const SwipeThreshold: int := 20

  predicate InRange(i: int) {
    0 <= i <= MaxIndex
  }

  /** The `type` argument of the scroll and touch handlers: "minutes" or "seconds". */
  datatype Axis = Minutes | Seconds

  function Min(a: int, b: int): int { if a < b then a else b }
  function Max(a: int, b: int): int { if a > b then a else b }
  function Abs(a: int): int { if a < 0 then -a else a }

  /** `Math.min(Math.max(prev + delta, 0), length - 1)`: the moved index, pinned at the ends. */
  function Clamp(prev: int, delta: int): (next: int)
    ensures InRange(next)
    ensures InRange(prev + delta) ==> next == prev + delta
    ensures prev + delta < 0 ==> next == 0
    ensures prev + delta > MaxIndex ==> next == MaxIndex
  {
    Min(Max(prev + delta, 0), MaxIndex)
  }

  /** At the first and last label a step outward stays put rather than wrapping around. */
  lemma ClampPinsEnds()
    ensures Clamp(0, -1) == 0 && Clamp(MaxIndex, 1) == MaxIndex
    ensures Clamp(MaxIndex, -1) == MaxIndex - 1 && Clamp(0, 1) == 1
  {
  }

  /** `minute * 60 + second`: for picker values, a duration of under an hour. */
  function TotalSeconds(minute: int, second: int): (total: int)
    ensures InRange(minute) && InRange(second) ==> 0 <= total <= 3599
  {
    minute * 60 + second
  }

  /** The total loses nothing: the picker values are its whole minutes and leftover seconds. */
  lemma TotalSecondsLossless(minute: int, second: int)
    requires InRange(minute) && InRange(second)
    ensures TotalSeconds(minute, second) / 60 == minute
    ensures TotalSeconds(minute, second) % 60 == second
  {
  }

  /**
   * The step a touch move from `startY` to `endY` produces: none within the threshold, +1 when
   * the finger moved up by more than it (the start is below the end on screen), -1 when it moved
   * down by more than it.
   */
  function SwipeStep(startY: int, endY: int): (step: Option<int>)
    ensures step.Some? <==> Abs(startY - endY) > SwipeThreshold
    ensures step == Some(1) <==> startY - endY > SwipeThreshold
    ensures step == Some(-1) <==> endY - startY > SwipeThreshold
  {
    var deltaY := startY - endY;
    if Abs(deltaY) > SwipeThreshold then Some(if deltaY > 0 then 1 else -1) else None
  }

  /** The one-tap shortcuts, as (minute, second) pairs, in the order of their buttons. */
  const Presets: seq<(int, int)> :=
    [(1, 0), (1, 30), (2, 0), (2, 30), (3, 0), (5, 0),
     (6, 0), (7, 0), (7, 30), (8, 0), (8, 30), (10, 0)]

  /** Every preset is a pair of valid picker indices. */
  lemma PresetsInRange()
    ensures |Presets| == 12
    ensures forall i :: 0 <= i < |Presets| ==> InRange(Presets[i].0) && InRange(Presets[i].1)
  {
  }
}
