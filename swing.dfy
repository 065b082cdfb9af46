/** One shot on the hole: the launch angle and velocity chosen by the player and
    the distance the ball travels as a result (GolfDemo/Swing.cs). */
module Swings {

  /** Gravitational acceleration in m/s^2, the constant `GRAVITY`. */
  const Gravity: real := 9.8

  /** The trigonometry the distance formula relies on: the value of pi and the
      sine function. Both come from the runtime library and are not computed
      here; every fact the model needs about them is a precondition of the
      lemma that uses it. */
  datatype Trig = Trig(pi: real, sin: real -> real)

  /** What a lemma may rely on about the library: pi is positive and the sine
      is non-negative on the open interval (0, pi). */
  ghost predicate SineNonNegative(t: Trig) {
    t.pi > 0.0 && forall x: real :: 0.0 < x < t.pi ==> t.sin(x) >= 0.0
  }

  /** The single error a swing can raise: `AngleInvalidExeption`. */
  datatype Error = AngleInvalid

  datatype Result<T> = Ok(value: T) | Err(error: Error)

  /** A constructed swing: its angle in degrees and its (clamped) velocity in m/s. */
  datatype Swing = Swing(angle: real, velocity: real)

  /** The launch angles the constructor accepts: the open interval (0, 90). */
  predicate ValidAngle(angle: real) {
    0.0 < angle < 90.0
  }

  /** What every swing produced by `NewSwing` satisfies. */
  predicate WellFormed(s: Swing) {
    ValidAngle(s.angle) && s.velocity >= 0.0
  }

  /** The constructor `Swing(angle, velocity, course)`: rejects an angle outside
      (0, 90) before anything else, then clamps a non-positive velocity to 0 and
      keeps the angle as given. */
  method NewSwing(angle: real, velocity: real) returns (r: Result<Swing>)
    ensures r.Err? <==> angle >= 90.0 || angle <= 0.0
    ensures r.Err? ==> r.error == AngleInvalid
    ensures r.Ok? ==> WellFormed(r.value) && r.value.angle == angle
    ensures r.Ok? && velocity > 0.0 ==> r.value.velocity == velocity
    ensures r.Ok? && velocity <= 0.0 ==> r.value.velocity == 0.0
  {
    if angle >= 90.0 || angle <= 0.0 {
      return Err(AngleInvalid);
    }
    var v: real;
    if velocity <= 0.0 {
      v := 0.0;
    } else {
      v := velocity;
    }
    r := Ok(Swing(angle, v));
  }

  /** The getter `AngleInRadians`: the angle in degrees scaled by pi / 180. An
      angle the constructor accepts is, in radians, strictly between 0 and a
      right angle. */
  function AngleInRadians(s: Swing, t: Trig): (r: real)
    ensures t.pi > 0.0 && ValidAngle(s.angle) ==> 0.0 < r < t.pi / 2.0
  {
    var k := t.pi / 180.0;
    assert t.pi > 0.0 && ValidAngle(s.angle) ==>
      k * (90.0 - s.angle) > 0.0 && k * 90.0 == t.pi / 2.0;
    k * s.angle
  }

  /** The getter `Distance`: the projectile range velocity^2 / g * sin(2 * angle).
      A ball hit with no velocity goes nowhere, whatever the sine returns. */
  function Distance(s: Swing, t: Trig): (d: real)
    ensures s.velocity == 0.0 ==> d == 0.0
  {
    s.velocity * s.velocity / Gravity * t.sin(2.0 * AngleInRadians(s, t))
  }

  /** A well-formed swing never moves the ball backwards: for an angle in
      (0, 90) the doubled angle lies in (0, pi), where the sine is non-negative. */
  lemma DistanceNonNegative(s: Swing, t: Trig)
    requires SineNonNegative(t) && WellFormed(s)
    ensures Distance(s, t) >= 0.0
  {
    var x := 2.0 * AngleInRadians(s, t);
    assert 0.0 < x < t.pi;
    assert t.sin(x) >= 0.0;
    var k := s.velocity * s.velocity / Gravity;
    assert k >= 0.0;
  }

  /** The range at 45 degrees is velocity^2 / g once sin(pi / 2) is 1; with
      velocity 56 it is exactly 320. */
  lemma DistanceAtFortyFive(t: Trig, velocity: real)
    requires t.sin(t.pi / 2.0) == 1.0
    ensures Distance(Swing(45.0, velocity), t) == velocity * velocity / Gravity
    ensures velocity == 56.0 ==> Distance(Swing(45.0, velocity), t) == 320.0
  {
    assert 2.0 * AngleInRadians(Swing(45.0, velocity), t) == t.pi / 2.0;
  }
}
