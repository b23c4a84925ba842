/**
 * The vibration mapper: a distance in millimetres becomes the PWM off-tick of one motor.
 * `strength = max(1300 - d, 0) * 2 / 3`, zeroed when above 860, all on u16.
 */
module Vibration {
  import opened Ints
  import opened Wrappers

  /** Largest strength the mapper lets through; anything above it is switched off. */
  const MAX_STRENGTH: u16 := 860

  /** Distance (mm) at and beyond which the linear ramp reaches zero. */
  const FAR_LIMIT: u16 := 1300

  /** The ramp value before the clamp, with release-build (wrapping) u16 arithmetic. */
  function RawStrength(dist: u16): u16
  {
    WrappingMul(Max(WrappingSub(FAR_LIMIT, dist), 0), 2) / 3
  }

  /**
   * The off-tick written for a motor whose region measured `dist` millimetres
   * (release build: u16 subtraction and multiplication wrap).
   */
  function VibrationStrengthFrom(dist: u16): (r: u16)
    ensures r <= MAX_STRENGTH
    ensures r == 0 || r == RawStrength(dist)
  {
    var strength := RawStrength(dist);
    if strength > MAX_STRENGTH then 0 else strength
  }

  /** `max(x, 0)` on an unsigned value does nothing. */
  lemma MaxWithZeroIsIdentity(x: u16)
    ensures Max(x, 0) == x
  {
  }

  /** On the ramp 9..1300 the strength is exactly the truncated (1300 - d) * 2 / 3. */
  lemma RampStrength(dist: u16)
    requires 9 <= dist <= FAR_LIMIT
    ensures RawStrength(dist) == (FAR_LIMIT - dist) * 2 / 3
    ensures VibrationStrengthFrom(dist) == (FAR_LIMIT - dist) * 2 / 3
  {
  }

  /** Closer than 9 mm the ramp gives 861..866, which the clamp turns into 0. */
  lemma TooCloseIsOff(dist: u16)
    requires dist <= 8
    ensures 861 <= RawStrength(dist) <= 866
    ensures VibrationStrengthFrom(dist) == 0
  {
  }

  /** Closer obstacles never give a weaker vibration on the ramp. */
  lemma RampMonotone(a: u16, b: u16)
    requires 9 <= a <= b <= FAR_LIMIT
    ensures VibrationStrengthFrom(a) >= VibrationStrengthFrom(b)
  {
    RampStrength(a);
    RampStrength(b);
  }

  /**
   * Beyond 1300 mm the subtraction wraps. The result is off everywhere except
   * the window 32777..34066, where the wrapped value lands back under the clamp.
   */
  lemma BeyondRampStrength(dist: u16)
    requires FAR_LIMIT <= dist
    ensures VibrationStrengthFrom(dist) != 0 <==> 32777 <= dist <= 34066
    ensures 32777 <= dist <= 34066 ==> VibrationStrengthFrom(dist) == (68136 - 2 * dist) / 3
  {
  }

  /** Sample strengths: on the ramp, at both of its ends, and at both edges of the wrap-around window. */
  lemma KnownStrengths()
    ensures VibrationStrengthFrom(500) == 533
    ensures VibrationStrengthFrom(1000) == 200
    ensures VibrationStrengthFrom(1300) == 0
    ensures VibrationStrengthFrom(9) == 860
    ensures VibrationStrengthFrom(8) == 0
    ensures VibrationStrengthFrom(32777) == 860
    ensures VibrationStrengthFrom(34067) == 0
  {
  }

  /**
   * The same computation in a debug build: the u16 subtraction is checked, and an
   * underflow panics (`None`; `panic_halt` then halts the device). The checked doubling
   * that follows cannot overflow, since the difference is at most 1300.
   */
  function CheckedStrength(dist: u16): (r: Option<u16>)
    ensures r.None? <==> dist > FAR_LIMIT
    ensures r.Some? ==> r.value <= MAX_STRENGTH
  {
    if dist > FAR_LIMIT then None
    else
      var diff := FAR_LIMIT - dist;
      var strength := Max(diff, 0) * 2 / 3;
      Some(if strength > MAX_STRENGTH then 0 else strength)
  }

  /** Where a debug build does not panic, it computes the same strength as a release build. */
  lemma CheckedAgreesWithWrapping(dist: u16)
    ensures dist <= FAR_LIMIT ==> CheckedStrength(dist) == Some(VibrationStrengthFrom(dist))
  {
  }
}
