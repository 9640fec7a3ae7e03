/** The simpler studio: its twist-then-fatten deformation loop, its camera
    angle table and its shape-to-geometry choice. */
module MiniStudio {
  import opened Vectors

  /** Every shape the studio's state can hold; the shape menu offers only
      the first five. */
  datatype Shape = Cube | Sphere | Cylinder | Donut | Cone | Text | Svg

  /** The base geometry the studio asks the geometry library for, with the
      constructor arguments it passes. */
  datatype Geometry =
    | RoundedBox(width: real, height: real, depth: real, segments: int, radius: real)
    | SphereGeometry(radius: real, widthSegments: int, heightSegments: int)
    | CylinderGeometry(radiusTop: real, radiusBottom: real, height: real, radialSegments: int)
    | TorusGeometry(radius: real, tube: real, radialSegments: int, tubularSegments: int)
    | ConeGeometry(radius: real, height: real, radialSegments: int)

  /** The rounded box used for cubes and for every shape without a case. */
  function CubeGeometry(roundness: real): Geometry
  {
    RoundedBox(1.5, 1.5, 1.5, 6, roundness * 10.0)
  }

  function BaseGeometry(shape: Shape, roundness: real): (g: Geometry)
    ensures g.RoundedBox? <==> shape in {Cube, Text, Svg}
    ensures g.RoundedBox? ==> g == CubeGeometry(roundness)
    ensures shape == Sphere ==> g == SphereGeometry(1.0, 32, 16)
    ensures shape == Cylinder ==> g == CylinderGeometry(1.0, 1.0, 2.0, 32)
    ensures shape == Donut ==> g == TorusGeometry(1.0, 0.4, 16, 100)
    ensures shape == Cone ==> g == ConeGeometry(1.0, 2.0, 32)
  {
    match shape
    case Cube => CubeGeometry(roundness)
    case Sphere => SphereGeometry(1.0, 32, 16)
    case Cylinder => CylinderGeometry(1.0, 1.0, 2.0, 32)
    case Donut => TorusGeometry(1.0, 0.4, 16, 100)
    case Cone => ConeGeometry(1.0, 2.0, 32)
    case _ => CubeGeometry(roundness)
  }

  /** Shapes without a case of their own get exactly the cube's geometry. */
  lemma UnhandledShapesFallBackToCube(shape: Shape, roundness: real)
    requires shape !in {Sphere, Cylinder, Donut, Cone}
    ensures BaseGeometry(shape, roundness) == BaseGeometry(Cube, roundness)
  {
  }

  /** The camera position for the angle setting.  An angle without a case
      leaves the camera where the camera constructor put it, the origin. */
  function CameraPosition(angle: string): (p: Vec3)
    ensures angle == "isometric-left" ==> p == Vec3(-5.0, 5.0, 5.0)
    ensures angle == "isometric-right" ==> p == Vec3(5.0, 5.0, 5.0)
    ensures angle == "top-down" ==> p == Vec3(0.0, 7.0, 2.0)
    ensures angle !in {"isometric-left", "isometric-right", "top-down"} ==> p == Vec3(0.0, 0.0, 0.0)
  {
    if angle == "isometric-left" then Vec3(-5.0, 5.0, 5.0)
    else if angle == "isometric-right" then Vec3(5.0, 5.0, 5.0)
    else if angle == "top-down" then Vec3(0.0, 7.0, 2.0)
    else Vec3(0.0, 0.0, 0.0)
  }

  /** Uniform scaling of all three coordinates. */
  function Scale(v: Vec3, factor: real): (r: Vec3)
    ensures Radius2(r) == factor * factor * Radius2(v)
  {
    Vec3(v.x * factor, v.y * factor, v.z * factor)
  }

  /** Twist about Y, then fatten. */
  function DeformVertex(v: Vec3, twist: real, fatten: real, trig: Trig): (r: Vec3)
    ensures r.y == fatten * v.y
  {
    Scale(Twist(v, twist, trig), fatten)
  }

  function DeformAll(s: seq<Vec3>, twist: real, fatten: real, trig: Trig): (r: seq<Vec3>)
    ensures |r| == |s|
    ensures forall i :: 0 <= i < |s| ==> r[i].y == fatten * s[i].y
  {
    seq(|s|, i requires 0 <= i < |s| => DeformVertex(s[i], twist, fatten, trig))
  }

  /** The deformation loop: each index is read and rewritten exactly once. */
  method Deform(a: array<Vec3>, twist: real, fatten: real, trig: Trig)
    modifies a
    ensures a[..] == DeformAll(old(a[..]), twist, fatten, trig)
  {
    ghost var base := a[..];
    var i := 0;
    while i < a.Length
      invariant 0 <= i <= a.Length
      invariant forall k :: 0 <= k < i ==> a[k] == DeformVertex(base[k], twist, fatten, trig)
      invariant forall k :: i <= k < a.Length ==> a[k] == base[k]
    {
      var vertex := a[i];
      vertex := Twist(vertex, twist, trig);
      vertex := Scale(vertex, fatten);
      a[i] := vertex;
      i := i + 1;
    }
  }

  /** The rotation keeps x*x + z*z and fattening multiplies it by fatten^2. */
  lemma DeformRadius(v: Vec3, twist: real, fatten: real, trig: Trig)
    requires ValidTrig(trig)
    ensures Radius2(DeformVertex(v, twist, fatten, trig)) == fatten * fatten * Radius2(v)
  {
    TwistKeepsRadius(v, twist, trig);
  }

  /** With twist 0 and fatten 1 the pass is the identity. */
  lemma NeutralIsIdentity(s: seq<Vec3>, trig: Trig)
    requires ValidTrig(trig)
    ensures DeformAll(s, 0.0, 1.0, trig) == s
  {
    var r := DeformAll(s, 0.0, 1.0, trig);
    forall i | 0 <= i < |s|
      ensures r[i] == s[i]
    {
      TwistNeutral(s[i], 0.0, trig);
    }
  }
}
