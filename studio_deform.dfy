/** The vertex-deformation pass that the main 3D studio runs when it builds a
    mesh: taper by normalised height, then sinusoidal noise, then a twist
    about the vertical axis, written back into the position buffer in place. */
module StudioDeform {
  import opened Vectors

  /** The Y part of the geometry's bounding box.  A buffer without vertices
      has an empty box, whose height is never positive. */
  datatype YExtent = Empty | Extent(minY: real, maxY: real)
  {
    predicate HasHeight()
    {
      Extent? && maxY - minY > 0.0
    }
  }

  /** The deformation sliders of the studio. */
  datatype DeformParams = DeformParams(twist: real, taper: real, noise: real)

  const Neutral: DeformParams := DeformParams(0.0, 0.0, 0.0)

  function Min(a: real, b: real): real { if a <= b then a else b }
  function Max(a: real, b: real): real { if a >= b then a else b }

  /** The Y extent of a buffer: the smallest and largest Y it holds. */
  function YExtentOf(s: seq<Vec3>): (e: YExtent)
    ensures e.Extent? <==> |s| > 0
    ensures e.Extent? ==> forall i :: 0 <= i < |s| ==> e.minY <= s[i].y <= e.maxY
    ensures e.Extent? ==> exists i :: 0 <= i < |s| && s[i].y == e.minY
    ensures e.Extent? ==> exists i :: 0 <= i < |s| && s[i].y == e.maxY
  {
    if |s| == 0 then Empty
    else
      var last := s[|s| - 1].y;
      var e0 := YExtentOf(s[..|s| - 1]);
      if e0.Empty? then Extent(last, last)
      else Extent(Min(e0.minY, last), Max(e0.maxY, last))
  }

  /** Computes the bounding box's Y extent with one pass over the buffer. */
  method ComputeYExtent(a: array<Vec3>) returns (e: YExtent)
    ensures e == YExtentOf(a[..])
  {
    e := Empty;
    var i := 0;
    while i < a.Length
      invariant 0 <= i <= a.Length
      invariant e == YExtentOf(a[..i])
    {
      assert a[..i + 1][..i] == a[..i];
      var y := a[i].y;
      if e.Empty? {
        e := Extent(y, y);
      } else {
        e := Extent(Min(e.minY, y), Max(e.maxY, y));
      }
      i := i + 1;
    }
    assert a[..a.Length] == a[..];
  }

  /** A vertex's height within the box, 0 at the bottom and 1 at the top;
      0 throughout when the box has no positive height. */
  function NormalizedY(y: real, box: YExtent): (n: real)
    ensures !box.HasHeight() ==> n == 0.0
    ensures box.HasHeight() ==> n * (box.maxY - box.minY) == y - box.minY
    ensures box.HasHeight() && box.minY <= y <= box.maxY ==> 0.0 <= n <= 1.0
  {
    if box.HasHeight() then
      var h := box.maxY - box.minY;
      assert box.minY <= y <= box.maxY ==> 0.0 <= (y - box.minY) / h <= 1.0 by {
        if box.minY <= y <= box.maxY {
          DivUnit(y - box.minY, h);
        }
      }
      (y - box.minY) / h
    else 0.0
  }

  /** A quotient of two reals with 0 <= a <= h lies in [0, 1]. */
  lemma DivUnit(a: real, h: real)
    requires h > 0.0 && 0.0 <= a <= h
    ensures 0.0 <= a / h <= 1.0
  {
    assert a / h * h == a;
  }

  /** Horizontal scale by 1 - normalizedY * taper; Y is not touched. */
  function Taper(v: Vec3, normalizedY: real, taper: real): (r: Vec3)
    ensures r.y == v.y
    ensures Radius2(r) == (1.0 - normalizedY * taper) * (1.0 - normalizedY * taper) * Radius2(v)
  {
    var amount := 1.0 - normalizedY * taper;
    Vec3(v.x * amount, v.y, v.z * amount)
  }

  /** Adds sin(2y) * noise * 0.2 to both x and z, but only when noise > 0. */
  function Noise(v: Vec3, noise: real, trig: Trig): (r: Vec3)
    ensures r.y == v.y
    ensures noise <= 0.0 ==> r == v
    ensures r.x - v.x == r.z - v.z
  {
    if noise > 0.0 then
      var amount := trig.sin(v.y * 2.0) * noise * 0.2;
      Vec3(v.x + amount, v.y, v.z + amount)
    else v
  }

  /** Noise still applies at the bottom of the box, where the taper does
      nothing: there the tapered vertex is moved by sin(2y) * noise * 0.2
      in x and in z, a function of the raw height y. */
  lemma NoiseAtBottom(v: Vec3, box: YExtent, p: DeformParams, trig: Trig)
    requires !box.HasHeight() || v.y == box.minY
    requires p.noise > 0.0
    ensures var d := trig.sin(2.0 * v.y) * p.noise * 0.2;
            Noise(Taper(v, NormalizedY(v.y, box), p.taper), p.noise, trig) == Vec3(v.x + d, v.y, v.z + d)
  {
    TaperNeutralAtBottom(v, box, p.taper);
    assert v.y * 2.0 == 2.0 * v.y;
  }

  /** The noise displacement depends on the height alone: two vertices at
      the same height are moved by the same amount. */
  lemma NoiseHeightOnly(v: Vec3, w: Vec3, noise: real, trig: Trig)
    requires v.y == w.y
    ensures Noise(v, noise, trig).x - v.x == Noise(w, noise, trig).x - w.x
    ensures Noise(v, noise, trig).z - v.z == Noise(w, noise, trig).z - w.z
  {
  }

  /** The three steps applied to one vertex, in the order of the pass. */
  function DeformVertex(v: Vec3, box: YExtent, p: DeformParams, trig: Trig): (r: Vec3)
    ensures r.y == v.y
  {
    var tapered := Taper(v, NormalizedY(v.y, box), p.taper);
    var noisy := Noise(tapered, p.noise, trig);
    Twist(noisy, p.twist, trig)
  }

  /** What the pass leaves in a buffer that held `s`: every vertex is
      deformed against the box of the undeformed buffer. */
  function DeformAll(s: seq<Vec3>, p: DeformParams, trig: Trig): (r: seq<Vec3>)
    ensures |r| == |s|
    ensures forall i :: 0 <= i < |s| ==> r[i].y == s[i].y
  {
    var box := YExtentOf(s);
    seq(|s|, i requires 0 <= i < |s| => DeformVertex(s[i], box, p, trig))
  }

  /** The deformation loop: the box is taken once, before any vertex is
      written, and then each index is rewritten exactly once. */
  method Deform(a: array<Vec3>, p: DeformParams, trig: Trig)
    modifies a
    ensures a[..] == DeformAll(old(a[..]), p, trig)
  {
    var box := ComputeYExtent(a);
    ghost var base := a[..];
    var i := 0;
    while i < a.Length
      invariant 0 <= i <= a.Length
      invariant forall k :: 0 <= k < i ==> a[k] == DeformVertex(base[k], box, p, trig)
      invariant forall k :: i <= k < a.Length ==> a[k] == base[k]
    {
      var vertex := a[i];
      var normalizedY := NormalizedY(vertex.y, box);
      vertex := Taper(vertex, normalizedY, p.taper);
      vertex := Noise(vertex, p.noise, trig);
      vertex := Twist(vertex, p.twist, trig);
      a[i] := vertex;
      i := i + 1;
    }
  }

  /** At the bottom of the box, or on a mesh without height, the taper
      factor is exactly 1 and the taper step changes nothing. */
  lemma TaperNeutralAtBottom(v: Vec3, box: YExtent, taper: real)
    requires !box.HasHeight() || v.y == box.minY
    ensures NormalizedY(v.y, box) == 0.0
    ensures Taper(v, NormalizedY(v.y, box), taper) == v
  {
    if box.HasHeight() {
      var h := box.maxY - box.minY;
      assert v.y - box.minY == 0.0;
      assert 0.0 / h == 0.0;
      assert NormalizedY(v.y, box) == (v.y - box.minY) / h;
    }
  }

  /** With taper 1 the top of the box collapses onto the vertical axis. */
  lemma FullTaperCollapsesTop(v: Vec3, box: YExtent)
    requires box.HasHeight() && v.y == box.maxY
    ensures NormalizedY(v.y, box) == 1.0
    ensures Taper(v, NormalizedY(v.y, box), 1.0) == Vec3(0.0, v.y, 0.0)
  {
    var n := NormalizedY(v.y, box);
    var h := box.maxY - box.minY;
    assert n * h == 1.0 * h;
  }

  /** With all three sliders at zero a vertex is left where it is. */
  lemma NeutralVertex(v: Vec3, box: YExtent, trig: Trig)
    requires ValidTrig(trig)
    ensures DeformVertex(v, box, Neutral, trig) == v
  {
    var tapered := Taper(v, NormalizedY(v.y, box), 0.0);
    assert tapered == v;
    TwistNeutral(v, 0.0, trig);
  }

  /** With all three sliders at zero the pass is the identity. */
  lemma NeutralIsIdentity(s: seq<Vec3>, trig: Trig)
    requires ValidTrig(trig)
    ensures DeformAll(s, Neutral, trig) == s
  {
    var r := DeformAll(s, Neutral, trig);
    forall i | 0 <= i < |s|
      ensures r[i] == s[i]
    {
      NeutralVertex(s[i], YExtentOf(s), trig);
    }
  }

  /** The twist keeps the radius that taper and noise produced. */
  lemma DeformRadius(v: Vec3, box: YExtent, p: DeformParams, trig: Trig)
    requires ValidTrig(trig)
    ensures Radius2(DeformVertex(v, box, p, trig))
         == Radius2(Noise(Taper(v, NormalizedY(v.y, box), p.taper), p.noise, trig))
  {
    TwistKeepsRadius(Noise(Taper(v, NormalizedY(v.y, box), p.taper), p.noise, trig), p.twist, trig);
  }

  /** A flat mesh lying in the plane y = 0 is left unchanged by any
      setting: the box has no height, sin 0 = 0 and the twist angle is 0. */
  lemma FlatMeshAtGroundUnchanged(s: seq<Vec3>, p: DeformParams, trig: Trig)
    requires ValidTrig(trig)
    requires forall i :: 0 <= i < |s| ==> s[i].y == 0.0
    ensures DeformAll(s, p, trig) == s
  {
    var box := YExtentOf(s);
    assert !box.HasHeight() by {
      if box.Extent? {
        var i :| 0 <= i < |s| && s[i].y == box.minY;
        var j :| 0 <= j < |s| && s[j].y == box.maxY;
      }
    }
    var r := DeformAll(s, p, trig);
    forall i | 0 <= i < |s|
      ensures r[i] == s[i]
    {
      TaperNeutralAtBottom(s[i], box, p.taper);
      TwistNeutral(s[i], p.twist, trig);
    }
  }
}
