/** The angle-to-duty-cycle map of `rotate_servo_to_angle` for an SG90 servo:
    beam angles from -90 to +90 degrees become PWM duty cycles, in percent,
    between 2 and 12. The constants name +90 degrees with a duty cycle of 2
    and -90 degrees with 12; the interpolation as written starts from the
    duty cycle named for +90 at -90 and so turns the other way. */
module Servo {

  const MAX_ANGLE: real := 90.0
  const MAX_ANGLE_DUTY_CYCLE: real := 2.0
  const MIN_ANGLE: real := -90.0
  const MIN_ANGLE_DUTY_CYCLE: real := 12.0

  /** The beam angles the servo can turn to. */
  predicate InRange(beamAngle: real)
  {
    MIN_ANGLE <= beamAngle <= MAX_ANGLE
  }

  /** The duty cycle as written: interpolated from MAX_ANGLE_DUTY_CYCLE at
      MIN_ANGLE to MIN_ANGLE_DUTY_CYCLE at MAX_ANGLE. */
  function DutyCycleAsWritten(beamAngle: real): (duty: real)
    ensures InRange(beamAngle) ==> MAX_ANGLE_DUTY_CYCLE <= duty <= MIN_ANGLE_DUTY_CYCLE
  {
    (beamAngle - MIN_ANGLE) / (MAX_ANGLE - MIN_ANGLE) * (MIN_ANGLE_DUTY_CYCLE - MAX_ANGLE_DUTY_CYCLE)
      + MAX_ANGLE_DUTY_CYCLE
  }

  /** As written, +90 degrees gets the duty cycle named for -90, and the map
      increases with the angle. */
  lemma AsWrittenSwapsEnds(a: real, b: real)
    requires a < b
    ensures DutyCycleAsWritten(MAX_ANGLE) == MIN_ANGLE_DUTY_CYCLE != MAX_ANGLE_DUTY_CYCLE
    ensures DutyCycleAsWritten(MIN_ANGLE) == MAX_ANGLE_DUTY_CYCLE != MIN_ANGLE_DUTY_CYCLE
    ensures DutyCycleAsWritten(a) < DutyCycleAsWritten(b)
  {
    assert DutyCycleAsWritten(b) - DutyCycleAsWritten(a) == (b - a) / 18.0;
  }

  /** The duty cycle the constants describe: MAX_ANGLE_DUTY_CYCLE at MAX_ANGLE
      and MIN_ANGLE_DUTY_CYCLE at MIN_ANGLE, linear in between. */
  function DutyCycle(beamAngle: real): (duty: real)
    ensures InRange(beamAngle) ==> MAX_ANGLE_DUTY_CYCLE <= duty <= MIN_ANGLE_DUTY_CYCLE
  {
    (MAX_ANGLE - beamAngle) / (MAX_ANGLE - MIN_ANGLE) * (MIN_ANGLE_DUTY_CYCLE - MAX_ANGLE_DUTY_CYCLE)
      + MAX_ANGLE_DUTY_CYCLE
  }

  /** The two ends get their named duty cycles and the centre gets 7. */
  lemma DutyCycleEnds()
    ensures DutyCycle(MAX_ANGLE) == MAX_ANGLE_DUTY_CYCLE
    ensures DutyCycle(MIN_ANGLE) == MIN_ANGLE_DUTY_CYCLE
    ensures DutyCycle(0.0) == (MAX_ANGLE_DUTY_CYCLE + MIN_ANGLE_DUTY_CYCLE) / 2.0
  {
  }

  /** The duty cycle falls strictly as the angle grows, by 1/18 per degree,
      and it is affine: it keeps weighted means of angles. */
  lemma DutyCycleDecreasingAffine(a: real, b: real, w: real)
    ensures a < b ==> DutyCycle(b) < DutyCycle(a)
    ensures DutyCycle(a) - DutyCycle(b) == (b - a) / 18.0
    ensures DutyCycle(w * a + (1.0 - w) * b) == w * DutyCycle(a) + (1.0 - w) * DutyCycle(b)
  {
    assert DutyCycle(a) - DutyCycle(b) == (b - a) / 18.0;
  }

  /** The formula as written is the intended one mirrored about 0 degrees. */
  lemma AsWrittenIsMirrored(beamAngle: real)
    ensures DutyCycleAsWritten(beamAngle) == DutyCycle(-beamAngle)
  {
  }
}
