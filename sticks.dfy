/**
 * The stick mapping at the head of `HumanDriver.update`: two rounded stick
 * values and button 6 become the action handed to the simulator, or nothing
 * at all when both sticks rest in the deadzone.
 *
 * Stick values arrive as integers in hundredths, which is what `round(v, 2)`
 * yields; reals stand in for Python floats.
 */
module Sticks {
  import opened Types

  /** The action array `np.array([-x, -z])` passed to `env.step`. */
  datatype Action = Action(speed: real, steering: real)

  /** Scale applied to the forward stick, keeping turn authority higher than throttle. */
  const ThrottleScale: real := 0.9
  /** Scale applied to the turn stick. */
  const SteeringScale: real := 3.0
  /** Joystick button that forces straight-line driving at full speed. */
  const BoostButton: int := 6

  /** The float value `round(v, 2)` of a stick given in hundredths. */
  function Hundredths(v: int): real
  {
    v as real / 100.0
  }

  /**
   * The action for forward stick `y` and turn stick `rx` (both in hundredths),
   * with `boost` telling whether button 6 is held; `None` when both sticks are
   * zero, in which case the frame is skipped before the boost button is looked at.
   */
  function MapSticks(y: int, rx: int, boost: bool): (r: Option<Action>)
    ensures r.None? <==> y == 0 && rx == 0
    ensures r.Some? && boost ==> r.value == Action(1.0, 0.0)
    ensures r.Some? && !boost ==>
      (r.value.speed < 0.0 <==> y > 0) && (r.value.speed > 0.0 <==> y < 0) &&
      (r.value.steering < 0.0 <==> rx > 0) && (r.value.steering > 0.0 <==> rx < 0)
    ensures r.Some? && !boost && -100 <= y <= 100 ==> -ThrottleScale <= r.value.speed <= ThrottleScale
    ensures r.Some? && !boost && -100 <= rx <= 100 ==> -SteeringScale <= r.value.steering <= SteeringScale
  {
    if rx == 0 && y == 0 then
      None
    else
      var x := if boost then -1.0 else Hundredths(y) * ThrottleScale;
      var z := if boost then 0.0 else Hundredths(rx) * SteeringScale;
      Some(Action(-x, -z))
  }
}
