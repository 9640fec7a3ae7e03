/** Points of a position buffer, the trigonometry the deformation passes use,
    and the twist about the vertical axis that both 3D studios apply. */
module Vectors {

  /** One vertex position, with real numbers in place of JavaScript doubles. */
  datatype Vec3 = Vec3(x: real, y: real, z: real)

  /** The value of JavaScript's Math.PI, as an exact decimal. */
  const MathPI: real := 3.141592653589793

  /** Math.sin and Math.cos, supplied by the caller.  Nothing about numeric
      accuracy is assumed: the proofs use only the facts in ValidTrig. */
  datatype Trig = Trig(sin: real -> real, cos: real -> real)

  ghost predicate ValidTrig(t: Trig)
  {
    && t.sin(0.0) == 0.0
    && t.cos(0.0) == 1.0
    && forall a :: t.sin(a) * t.sin(a) + t.cos(a) * t.cos(a) == 1.0
  }

  /** Squared distance from the vertical (Y) axis. */
  function Radius2(v: Vec3): real
  {
    v.x * v.x + v.z * v.z
  }

  /** Angle in radians by which a vertex at height `y` is turned for a
      twist of `twistDegrees`: it grows linearly with the raw height. */
  function TwistAngle(y: real, twistDegrees: real): (theta: real)
    ensures y == 0.0 || twistDegrees == 0.0 ==> theta == 0.0
  {
    y * ((twistDegrees * MathPI) / 180.0)
  }

  /** Rotation of the (x, z) pair about the Y axis by TwistAngle(v.y, ...). */
  function Twist(v: Vec3, twistDegrees: real, trig: Trig): (r: Vec3)
    ensures r.y == v.y
  {
    var theta := TwistAngle(v.y, twistDegrees);
    var s := trig.sin(theta);
    var c := trig.cos(theta);
    Vec3(v.x * c - v.z * s, v.y, v.x * s + v.z * c)
  }

  /** Rotating by any angle keeps the horizontal radius. */
  lemma RotationKeepsRadius(x: real, z: real, s: real, c: real)
    requires s * s + c * c == 1.0
    ensures (x * c - z * s) * (x * c - z * s) + (x * s + z * c) * (x * s + z * c) == x * x + z * z
  {
    calc {
      (x * c - z * s) * (x * c - z * s) + (x * s + z * c) * (x * s + z * c);
      x * x * (c * c) - 2.0 * (x * z * c * s) + z * z * (s * s)
        + (x * x * (s * s) + 2.0 * (x * z * c * s) + z * z * (c * c));
      x * x * (s * s + c * c) + z * z * (s * s + c * c);
      x * x + z * z;
    }
  }

  /** The twist is a rigid rotation at each height: it keeps x*x + z*z. */
  lemma TwistKeepsRadius(v: Vec3, twistDegrees: real, trig: Trig)
    requires ValidTrig(trig)
    ensures Radius2(Twist(v, twistDegrees, trig)) == Radius2(v)
  {
    var theta := TwistAngle(v.y, twistDegrees);
    RotationKeepsRadius(v.x, v.z, trig.sin(theta), trig.cos(theta));
  }

  /** A zero twist, or a vertex at height zero, is left where it is. */
  lemma TwistNeutral(v: Vec3, twistDegrees: real, trig: Trig)
    requires ValidTrig(trig)
    requires twistDegrees == 0.0 || v.y == 0.0
    ensures Twist(v, twistDegrees, trig) == v
  {
    assert TwistAngle(v.y, twistDegrees) == 0.0;
  }
}
