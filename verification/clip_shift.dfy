/**
 Clipping does not depend on where the origin is: `decomposeCell` hands out
 tetrahedra relative to a reference point, and clipping them against the
 plane seen from that point gives the same pieces, moved the same way.
 */
module ClipShift {
  import opened Geometry
  import opened Clipping

  lemma DistancesShift(pl: Plane, t: Tet, s: Point)
    ensures Distances(ShiftPlane(pl, s), ShiftTet(t, s)) == Distances(pl, t)
  {
    ShiftPreservesDistance(pl, t[0], s);
    ShiftPreservesDistance(pl, t[1], s);
    ShiftPreservesDistance(pl, t[2], s);
    ShiftPreservesDistance(pl, t[3], s);
  }

  lemma CutShift(t: Tet, c: seq<real>, p: nat, q: nat, s: Point)
    requires |c| == 4 && p < 4 && q < 4 && c[p] > 0.0 > c[q]
    ensures Cut(ShiftTet(t, s), c, p, q) == Sub(Cut(t, c, p, q), s)
  {
    var w := Weights(c[p], c[q]);
    CombinationCommutesWithShift(t[p], t[q], s, w.0, w.1);
  }

  lemma ShiftUpdate(t: Tet, p: nat, x: Point, s: Point)
    requires p < 4
    ensures ShiftTet(t[p := x], s) == ShiftTet(t, s)[p := Sub(x, s)]
  {
  }

  lemma ShiftPPPN(t: Tet, c: seq<real>, b: Buckets, s: Point)
    requires Split(c, b, 3, 1)
    ensures ClipPPPN(ShiftTet(t, s), c, b) == ShiftAll(ClipPPPN(t, c, b), s)
  {
    var p0, p1, p2, n0 := b.pos[0], b.pos[1], b.pos[2], b.neg[0];
    var x0, x1, x2 := Cut(t, c, p0, n0), Cut(t, c, p1, n0), Cut(t, c, p2, n0);
    CutShift(t, c, p0, n0, s);
    CutShift(t, c, p1, n0, s);
    CutShift(t, c, p2, n0, s);
    ShiftUpdate(t, p0, x0, s);
    ShiftUpdate(t[p0 := x0], p1, x1, s);
    ShiftUpdate(t[p0 := x0][p1 := x1], p2, x2, s);
  }

  lemma ShiftPPNN(t: Tet, c: seq<real>, b: Buckets, s: Point)
    requires Split(c, b, 2, 2)
    ensures ClipPPNN(ShiftTet(t, s), c, b) == ShiftAll(ClipPPNN(t, c, b), s)
  {
    var p0, p1, n0, n1 := b.pos[0], b.pos[1], b.neg[0], b.neg[1];
    var i0, i1 := Cut(t, c, p0, n0), Cut(t, c, p1, n0);
    var i2, i3 := Cut(t, c, p0, n1), Cut(t, c, p1, n1);
    CutShift(t, c, p0, n0, s);
    CutShift(t, c, p1, n0, s);
    CutShift(t, c, p0, n1, s);
    CutShift(t, c, p1, n1, s);
    ShiftUpdate(t, p0, i2, s);
    ShiftUpdate(t[p0 := i2], p1, i1, s);
  }

  lemma ShiftPPNZ(t: Tet, c: seq<real>, b: Buckets, s: Point)
    requires Split(c, b, 2, 1)
    ensures ClipPPNZ(ShiftTet(t, s), c, b) == ShiftAll(ClipPPNZ(t, c, b), s)
  {
    var p0, p1, n0 := b.pos[0], b.pos[1], b.neg[0];
    var x0, x1 := Cut(t, c, p0, n0), Cut(t, c, p1, n0);
    CutShift(t, c, p0, n0, s);
    CutShift(t, c, p1, n0, s);
    ShiftUpdate(t, p0, x0, s);
    ShiftUpdate(t[p0 := x0], p1, x1, s);
  }

  lemma ShiftPNNN(t: Tet, c: seq<real>, b: Buckets, s: Point)
    requires Split(c, b, 1, 3)
    ensures ClipPNNN(ShiftTet(t, s), c, b) == ShiftAll(ClipPNNN(t, c, b), s)
  {
    var p0, n0, n1, n2 := b.pos[0], b.neg[0], b.neg[1], b.neg[2];
    CutShift(t, c, p0, n0, s);
    CutShift(t, c, p0, n1, s);
    CutShift(t, c, p0, n2, s);
    ShiftUpdate(t, p0, Cut(t, c, p0, n0), s);
  }

  lemma ShiftPNNZ(t: Tet, c: seq<real>, b: Buckets, s: Point)
    requires Split(c, b, 1, 2)
    ensures ClipPNNZ(ShiftTet(t, s), c, b) == ShiftAll(ClipPNNZ(t, c, b), s)
  {
    var p0, n0, n1 := b.pos[0], b.neg[0], b.neg[1];
    CutShift(t, c, p0, n0, s);
    CutShift(t, c, p0, n1, s);
    ShiftUpdate(t, p0, Cut(t, c, p0, n0), s);
  }

  lemma ShiftPNZZ(t: Tet, c: seq<real>, b: Buckets, s: Point)
    requires Split(c, b, 1, 1)
    ensures ClipPNZZ(ShiftTet(t, s), c, b) == ShiftAll(ClipPNZZ(t, c, b), s)
  {
    var p0, n0 := b.pos[0], b.neg[0];
    CutShift(t, c, p0, n0, s);
    ShiftUpdate(t, p0, Cut(t, c, p0, n0), s);
  }

  /**
   Moving the origin to `s` and clipping against the plane as seen from `s`
   yields the pieces of the unmoved clip, each moved by `-s`.
   */
  lemma ClipCommutesWithShift(pl: Plane, t: Tet, s: Point)
    ensures Clip(ShiftPlane(pl, s), ShiftTet(t, s)) == ShiftAll(Clip(pl, t), s)
  {
    var c := Distances(pl, t);
    DistancesShift(pl, t, s);
    var b := Classify(c);
    if |b.neg| == 0 {
    } else if |b.pos| == 0 {
    } else if |b.pos| == 3 {
      ShiftPPPN(t, c, b, s);
    } else if |b.pos| == 2 {
      if |b.neg| == 2 { ShiftPPNN(t, c, b, s); } else { ShiftPPNZ(t, c, b, s); }
    } else if |b.neg| == 3 {
      ShiftPNNN(t, c, b, s);
    } else if |b.neg| == 2 {
      ShiftPNNZ(t, c, b, s);
    } else {
      ShiftPNZZ(t, c, b, s);
    }
  }
}
