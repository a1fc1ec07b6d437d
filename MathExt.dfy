// The numeric helpers that the raycaster adds to Math and Number
// (src/scripts/extension/math.ts), and the transcendental functions of the
// host that the rest of the model treats as uninterpreted.

module MathExt {

  type PositiveReal = r: real | r > 0.0 witness 1.0

  /** A cosine about which only cos(0) = 1 is known. */
  type CosineFn = f: real -> real | f(0.0) == 1.0 witness (x: real) => 1.0

  /** Math.PI: an abstract positive constant. */
  const Pi: PositiveReal

  /** Math.cos, Math.sin and Math.sqrt: uninterpreted. */
  const Cos: CosineFn
  const Sin: real -> real
  const Sqrt: real -> real

  /** Math.clamp: Math.max(min, Math.min(value, max)). */
  function Clamp(value: real, min: real, max: real): (r: real)
    ensures min <= max ==> min <= r <= max
    ensures min <= value <= max ==> r == value
    ensures value <= min ==> r == min
    ensures min <= max <= value ==> r == max
    ensures max < min ==> r == min
  {
    var upper := if value < max then value else max;
    if min < upper then upper else min
  }

  /** Clamp is monotone in the clamped value. */
  lemma ClampMonotone(a: real, b: real, min: real, max: real)
    requires a <= b
    ensures Clamp(a, min, max) <= Clamp(b, min, max)
  {
  }

  /**
   * Math.clampAngle: a single wrap by one turn, not a full modulo. The result
   * always denotes the same direction as the input (it differs by 0 or one
   * full turn); it lies in [0, 2*Pi] for inputs within one turn of that range,
   * keeps exactly 2*Pi, and leaves an input below -2*Pi negative.
   */
  function ClampAngle(value: real): (r: real)
    ensures r == value || r == value + 2.0 * Pi || r == value - 2.0 * Pi
    ensures -2.0 * Pi <= value <= 4.0 * Pi ==> 0.0 <= r <= 2.0 * Pi
    ensures 0.0 <= value <= 2.0 * Pi ==> r == value
    ensures value < -2.0 * Pi ==> r < 0.0
    ensures value > 4.0 * Pi ==> r > 2.0 * Pi
  {
    if value < 0.0 then
      value + Pi * 2.0
    else if value > Pi * 2.0 then
      value - Pi * 2.0
    else
      value
  }

  /** ClampAngle is idempotent wherever its result is in range. */
  lemma ClampAngleIdempotent(value: real)
    requires -2.0 * Pi <= value <= 4.0 * Pi
    ensures ClampAngle(ClampAngle(value)) == ClampAngle(value)
  {
  }

  /** Number.prototype.toRadians */
  function ToRadians(degrees: real): real
  {
    degrees * Pi / 180.0
  }

  /** Number.prototype.toDegrees */
  function ToDegrees(radians: real): real
  {
    radians * 180.0 / Pi
  }

  /** Converting to radians and back, or to degrees and back, is the identity. */
  lemma DegreesRadiansRoundTrip(x: real)
    ensures ToDegrees(ToRadians(x)) == x
    ensures ToRadians(ToDegrees(x)) == x
  {
    var p: real := Pi;
    calc {
      ToDegrees(ToRadians(x));
      (x * p / 180.0) * 180.0 / p;
      { assert (x * p / 180.0) * 180.0 == x * p; }
      x * p / p;
      x;
    }
    calc {
      ToRadians(ToDegrees(x));
      (x * 180.0 / p) * p / 180.0;
      { assert (x * 180.0 / p) * p == x * 180.0; }
      x * 180.0 / 180.0;
      x;
    }
  }
}
