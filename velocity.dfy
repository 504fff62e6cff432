/** `evaluate_surface_velocity`: the Doppler relation between the centroid
    frequency and the surface velocity seen by a 24.125 GHz radar. The source
    divides by cos(θ·cos φ) (the product of the beam direction and the cosine
    of the tilt inside a single cosine); that factor is an input here. */
module Velocity {

  /** The speed of light the source uses, in m/s. */
  const SPEED_OF_LIGHT: real := 300000000.0
  /** The radar carrier frequency, in Hz. */
  const CARRIER_FREQUENCY: real := 24125000000.0

  /** The surface velocity, in m/s, for a Doppler centroid frequency in Hz.
      It is the velocity whose Doppler shift is that frequency. */
  function SurfaceVelocity(centroidFrequency: real, cosineFactor: real): (v: real)
    requires cosineFactor != 0.0
    ensures DopplerShift(v, cosineFactor) == centroidFrequency
  {
    var k := 2.0 * CARRIER_FREQUENCY * cosineFactor;
    assert k * (SPEED_OF_LIGHT * centroidFrequency / k) == SPEED_OF_LIGHT * centroidFrequency;
    (SPEED_OF_LIGHT * centroidFrequency) / (2.0 * CARRIER_FREQUENCY * cosineFactor)
  }

  /** The Doppler shift, in Hz, that a surface moving at v m/s produces. A
      surface at rest produces none; with a positive cosine factor the shift
      has the sign of the velocity. */
  function DopplerShift(velocity: real, cosineFactor: real): (f: real)
    ensures cosineFactor != 0.0 ==> (f == 0.0 <==> velocity == 0.0)
    ensures cosineFactor > 0.0 ==> (f > 0.0 <==> velocity > 0.0)
  {
    2.0 * CARRIER_FREQUENCY * cosineFactor * velocity / SPEED_OF_LIGHT
  }

  /** Converting a velocity to a frequency and back gives the velocity again. */
  lemma VelocityOfShift(velocity: real, cosineFactor: real)
    requires cosineFactor != 0.0
    ensures SurfaceVelocity(DopplerShift(velocity, cosineFactor), cosineFactor) == velocity
  {
    var k := 2.0 * CARRIER_FREQUENCY * cosineFactor;
    assert DopplerShift(velocity, cosineFactor) == k * velocity / SPEED_OF_LIGHT;
    assert SPEED_OF_LIGHT * (k * velocity / SPEED_OF_LIGHT) == k * velocity;
  }

  /** The velocity is linear in the frequency: no centroid means no velocity,
      and scaled or added frequencies give scaled or added velocities. */
  lemma VelocityIsLinear(f: real, g: real, a: real, cosineFactor: real)
    requires cosineFactor != 0.0
    ensures SurfaceVelocity(0.0, cosineFactor) == 0.0
    ensures SurfaceVelocity(a * f + g, cosineFactor)
         == a * SurfaceVelocity(f, cosineFactor) + SurfaceVelocity(g, cosineFactor)
  {
    var k := 2.0 * CARRIER_FREQUENCY * cosineFactor;
    assert SPEED_OF_LIGHT * (a * f + g) / k == a * (SPEED_OF_LIGHT * f / k) + SPEED_OF_LIGHT * g / k;
  }

  /** With a positive cosine factor, a higher frequency means a higher velocity. */
  lemma VelocityIncreasing(f: real, g: real, cosineFactor: real)
    requires cosineFactor > 0.0 && f < g
    ensures SurfaceVelocity(f, cosineFactor) < SurfaceVelocity(g, cosineFactor)
  {
    var k := 2.0 * CARRIER_FREQUENCY * cosineFactor;
    assert SPEED_OF_LIGHT * g / k - SPEED_OF_LIGHT * f / k == SPEED_OF_LIGHT * (g - f) / k;
  }
}
