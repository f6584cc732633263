/**
 Shared geometry primitives of the moment-of-fluid kernel: points/vectors over
 exact reals, tetrahedra as four index-stable corner slots, oriented planes
 (half-spaces) and signed distance.
 */
module Geometry {

  /** A point or displacement in 3-space (OpenFOAM's `vector`). */
  datatype Point = Point(x: real, y: real, z: real)

  const Origin: Point := Point(0.0, 0.0, 0.0)

  /** A tetrahedron: exactly four corners, addressed by the slot labels 0..3. */
  type Tet = s: seq<Point> | |s| == 4 witness [Point(0.0, 0.0, 0.0), Point(0.0, 0.0, 0.0), Point(0.0, 0.0, 0.0), Point(0.0, 0.0, 0.0)]

  /** An oriented plane `(normal, offset)`; the source's `hPlane` pair. */
  datatype Plane = Plane(normal: Point, offset: real)

  function Add(a: Point, b: Point): Point {
    Point(a.x + b.x, a.y + b.y, a.z + b.z)
  }

  function Sub(a: Point, b: Point): Point {
    Point(a.x - b.x, a.y - b.y, a.z - b.z)
  }

  function Scale(k: real, a: Point): Point {
    Point(k * a.x, k * a.y, k * a.z)
  }

  /** Inner product, OpenFOAM's `&` on vectors. */
  function Dot(a: Point, b: Point): real {
    a.x * b.x + a.y * b.y + a.z * b.z
  }

  /** Cross product, OpenFOAM's `^` on vectors. */
  function Cross(a: Point, b: Point): Point {
    Point(a.y * b.z - a.z * b.y, a.z * b.x - a.x * b.z, a.x * b.y - a.y * b.x)
  }

  /** Signed distance of `p` to the plane: positive in front, negative behind. */
  function SignedDistance(pl: Plane, p: Point): real {
    Dot(p, pl.normal) - pl.offset
  }

  /** The same plane seen from a frame whose origin has been moved to `s`. */
  function ShiftPlane(pl: Plane, s: Point): Plane {
    Plane(pl.normal, pl.offset - Dot(s, pl.normal))
  }

  function ShiftTet(t: Tet, s: Point): (r: Tet) {
    [Sub(t[0], s), Sub(t[1], s), Sub(t[2], s), Sub(t[3], s)]
  }

  function ShiftAll(ts: seq<Tet>, s: Point): (r: seq<Tet>)
  {
    seq(|ts|, i requires 0 <= i < |ts| => ShiftTet(ts[i], s))
  }

  lemma ShiftAllAppend(a: seq<Tet>, b: seq<Tet>, s: Point)
    ensures ShiftAll(a + b, s) == ShiftAll(a, s) + ShiftAll(b, s)
  {
  }

  /** Shifted lists concatenate to the shifted concatenation. */
  lemma AppendShifted(a: seq<Tet>, b: seq<Tet>, a0: seq<Tet>, b0: seq<Tet>, s: Point)
    requires a == ShiftAll(a0, s) && b == ShiftAll(b0, s)
    ensures a + b == ShiftAll(a0 + b0, s)
  {
    ShiftAllAppend(a0, b0, s);
  }

  /** Moving the frame origin and the plane together leaves signed distances unchanged. */
  lemma ShiftPreservesDistance(pl: Plane, p: Point, s: Point)
    ensures SignedDistance(ShiftPlane(pl, s), Sub(p, s)) == SignedDistance(pl, p)
  {
    var n := pl.normal;
    assert Dot(Sub(p, s), n) == Dot(p, n) - Dot(s, n);
  }

  /**
   Signed distance is affine along an edge: a weighted point with weights
   summing to one has the weighted signed distance.
   */
  lemma DistanceOfCombination(pl: Plane, a: Point, b: Point, w0: real, w1: real)
    requires w0 + w1 == 1.0
    ensures SignedDistance(pl, Add(Scale(w0, a), Scale(w1, b)))
         == w0 * SignedDistance(pl, a) + w1 * SignedDistance(pl, b)
  {
    var n := pl.normal;
    var p := Add(Scale(w0, a), Scale(w1, b));
    calc {
      Dot(p, n);
      (w0 * a.x + w1 * b.x) * n.x + (w0 * a.y + w1 * b.y) * n.y + (w0 * a.z + w1 * b.z) * n.z;
      w0 * Dot(a, n) + w1 * Dot(b, n);
    }
    calc {
      w0 * SignedDistance(pl, a) + w1 * SignedDistance(pl, b);
      w0 * Dot(a, n) + w1 * Dot(b, n) - (w0 + w1) * pl.offset;
    }
  }

  /** A weighted point with weights summing to one commutes with moving the origin. */
  lemma CombinationCommutesWithShift(a: Point, b: Point, s: Point, w0: real, w1: real)
    requires w0 + w1 == 1.0
    ensures Add(Scale(w0, Sub(a, s)), Scale(w1, Sub(b, s))) == Sub(Add(Scale(w0, a), Scale(w1, b)), s)
  {
    assert w0 * (a.x - s.x) + w1 * (b.x - s.x) == w0 * a.x + w1 * b.x - (w0 + w1) * s.x;
    assert w0 * (a.y - s.y) + w1 * (b.y - s.y) == w0 * a.y + w1 * b.y - (w0 + w1) * s.y;
    assert w0 * (a.z - s.z) + w1 * (b.z - s.z) == w0 * a.z + w1 * b.z - (w0 + w1) * s.z;
  }
}
