/**
 The corners of the clipped pieces: proved to be exactly the kept corners of
 the input together with the points where its crossing edges meet the plane.
 */
module ClipCorners {
  import opened Geometry
  import opened Clipping

  function TetCorners(t: Tet): set<Point> {
    {t[0], t[1], t[2], t[3]}
  }

  function Corners(ts: seq<Tet>): set<Point> {
    if ts == [] then {} else TetCorners(ts[0]) + Corners(ts[1..])
  }

  function KeptCorners(t: Tet, c: seq<real>): set<Point>
    requires |c| == 4
  {
    set j | 0 <= j < 4 && c[j] <= 0.0 :: t[j]
  }

  function CutPoints(t: Tet, c: seq<real>): set<Point>
    requires |c| == 4
  {
    set p, q | 0 <= p < 4 && 0 <= q < 4 && c[p] > 0.0 && c[q] < 0.0 :: Cut(t, c, p, q)
  }

  predicate Slots(js: seq<nat>) {
    forall k :: 0 <= k < |js| ==> js[k] < 4
  }

  /** The corners of `t` at the slots `js`. */
  function SlotPoints(t: Tet, js: seq<nat>): set<Point>
    requires Slots(js)
  {
    if js == [] then {} else {t[js[0]]} + SlotPoints(t, js[1..])
  }

  /** The cuts of every edge from a slot of `ps` to a slot of `qs`. */
  function PairCuts(t: Tet, c: seq<real>, ps: seq<nat>, qs: seq<nat>): set<Point>
    requires |c| == 4 && Slots(ps) && Slots(qs)
    requires forall k :: 0 <= k < |ps| ==> c[ps[k]] > 0.0
    requires forall k :: 0 <= k < |qs| ==> c[qs[k]] < 0.0
  {
    if ps == [] then {}
    else EdgeCuts(t, c, ps[0], qs) + PairCuts(t, c, ps[1..], qs)
  }

  function EdgeCuts(t: Tet, c: seq<real>, p: nat, qs: seq<nat>): set<Point>
    requires |c| == 4 && p < 4 && c[p] > 0.0 && Slots(qs)
    requires forall k :: 0 <= k < |qs| ==> c[qs[k]] < 0.0
  {
    if qs == [] then {} else {Cut(t, c, p, qs[0])} + EdgeCuts(t, c, p, qs[1..])
  }

  lemma {:induction false} SlotPointsMember(t: Tet, js: seq<nat>, x: Point)
    requires Slots(js)
    ensures x in SlotPoints(t, js) <==> exists k :: 0 <= k < |js| && x == t[js[k]]
  {
    if js != [] {
      SlotPointsMember(t, js[1..], x);
      if x == t[js[0]] {
      } else if x in SlotPoints(t, js[1..]) {
        var k :| 0 <= k < |js[1..]| && x == t[js[1..][k]];
        assert x == t[js[k + 1]];
      } else {
        forall k | 0 <= k < |js| ensures x != t[js[k]] {
          if k > 0 { assert js[k] == js[1..][k - 1]; }
        }
      }
    }
  }

  lemma {:induction false} EdgeCutsMember(t: Tet, c: seq<real>, p: nat, qs: seq<nat>, x: Point)
    requires |c| == 4 && p < 4 && c[p] > 0.0 && Slots(qs)
    requires forall k :: 0 <= k < |qs| ==> c[qs[k]] < 0.0
    ensures x in EdgeCuts(t, c, p, qs) <==> exists k :: 0 <= k < |qs| && x == Cut(t, c, p, qs[k])
  {
    if qs != [] {
      EdgeCutsMember(t, c, p, qs[1..], x);
      if x == Cut(t, c, p, qs[0]) {
      } else if x in EdgeCuts(t, c, p, qs[1..]) {
        var k :| 0 <= k < |qs[1..]| && x == Cut(t, c, p, qs[1..][k]);
        assert x == Cut(t, c, p, qs[k + 1]);
      } else {
        forall k | 0 <= k < |qs| ensures x != Cut(t, c, p, qs[k]) {
          if k > 0 { assert qs[k] == qs[1..][k - 1]; }
        }
      }
    }
  }

  lemma {:induction false} PairCutsMember(t: Tet, c: seq<real>, ps: seq<nat>, qs: seq<nat>, x: Point)
    requires |c| == 4 && Slots(ps) && Slots(qs)
    requires forall k :: 0 <= k < |ps| ==> c[ps[k]] > 0.0
    requires forall k :: 0 <= k < |qs| ==> c[qs[k]] < 0.0
    ensures x in PairCuts(t, c, ps, qs) <==>
      exists i, k :: 0 <= i < |ps| && 0 <= k < |qs| && x == Cut(t, c, ps[i], qs[k])
  {
    if ps != [] {
      PairCutsMember(t, c, ps[1..], qs, x);
      EdgeCutsMember(t, c, ps[0], qs, x);
      if x in EdgeCuts(t, c, ps[0], qs) {
        var k :| 0 <= k < |qs| && x == Cut(t, c, ps[0], qs[k]);
        assert 0 <= 0 < |ps| && x == Cut(t, c, ps[0], qs[k]);
      } else if x in PairCuts(t, c, ps[1..], qs) {
        var i, k :| 0 <= i < |ps[1..]| && 0 <= k < |qs| && x == Cut(t, c, ps[1..][i], qs[k]);
        assert x == Cut(t, c, ps[i + 1], qs[k]);
      } else {
        forall i, k | 0 <= i < |ps| && 0 <= k < |qs| ensures x != Cut(t, c, ps[i], qs[k]) {
          if i > 0 { assert ps[i] == ps[1..][i - 1]; }
        }
      }
    }
  }

  /** The kept corners are exactly the corners in the `neg` and `zero` buckets. */
  lemma KeptFromBuckets(t: Tet, c: seq<real>, b: Buckets)
    requires |c| == 4 && Classified(c, b)
    ensures KeptCorners(t, c) == SlotPoints(t, b.neg + b.zero)
  {
    var js := b.neg + b.zero;
    forall x | x in KeptCorners(t, c) ensures x in SlotPoints(t, js) {
      KeptInSlots(t, c, b, x);
    }
    forall k | 0 <= k < |js| ensures js[k] < 4 && c[js[k]] <= 0.0 {
      if k < |b.neg| { assert js[k] == b.neg[k]; } else { assert js[k] == b.zero[k - |b.neg|]; }
    }
    forall x | x in SlotPoints(t, js) ensures x in KeptCorners(t, c) {
      SlotsKept(t, c, js, x);
    }
  }

  lemma SlotsKept(t: Tet, c: seq<real>, js: seq<nat>, x: Point)
    requires |c| == 4
    requires forall k :: 0 <= k < |js| ==> js[k] < 4 && c[js[k]] <= 0.0
    requires x in SlotPoints(t, js)
    ensures x in KeptCorners(t, c)
  {
    SlotPointsMember(t, js, x);
    var k :| 0 <= k < |js| && x == t[js[k]];
    var j := js[k];
    assert j < 4 && c[j] <= 0.0 && x == t[j];
  }

  lemma KeptInSlots(t: Tet, c: seq<real>, b: Buckets, x: Point)
    requires |c| == 4 && Classified(c, b) && x in KeptCorners(t, c)
    ensures x in SlotPoints(t, b.neg + b.zero)
  {
    var js := b.neg + b.zero;
    var j :| 0 <= j < 4 && c[j] <= 0.0 && x == t[j];
    var k: nat;
    if c[j] < 0.0 {
      assert j in b.neg;
      k :| k < |b.neg| && b.neg[k] == j;
    } else {
      assert j in b.zero;
      var kz :| 0 <= kz < |b.zero| && b.zero[kz] == j;
      k := |b.neg| + kz;
    }
    assert js[k] == j;
    SlotPointsHas(t, js, k);
  }

  lemma {:induction false} SlotPointsHas(t: Tet, js: seq<nat>, k: nat)
    requires Slots(js) && k < |js|
    ensures t[js[k]] in SlotPoints(t, js)
  {
    if k > 0 {
      SlotPointsHas(t, js[1..], k - 1);
    }
  }

  /** The cut points are exactly the cuts of the `pos` x `neg` edges. */
  lemma CutsFromBuckets(t: Tet, c: seq<real>, b: Buckets)
    requires |c| == 4 && Classified(c, b)
    ensures CutPoints(t, c) == PairCuts(t, c, b.pos, b.neg)
  {
    forall x ensures x in CutPoints(t, c) <==> x in PairCuts(t, c, b.pos, b.neg) {
      PairCutsMember(t, c, b.pos, b.neg, x);
      if x in CutPoints(t, c) {
        var p: nat, q: nat :| p < 4 && q < 4 && c[p] > 0.0 && c[q] < 0.0 && x == Cut(t, c, p, q);
        assert p in b.pos && q in b.neg;
        var i :| 0 <= i < |b.pos| && b.pos[i] == p;
        var k :| 0 <= k < |b.neg| && b.neg[k] == q;
        assert x == Cut(t, c, b.pos[i], b.neg[k]);
      }
    }
  }

  lemma TetCornersPerm(u: Tet, a: nat, b: nat, c: nat, d: nat)
    requires a < 4 && b < 4 && c < 4 && d < 4
    requires a != b && a != c && a != d && b != c && b != d && c != d
    ensures TetCorners(u) == {u[a], u[b], u[c], u[d]}
  {
    forall j: nat | j < 4 ensures u[j] in {u[a], u[b], u[c], u[d]} {
      assert j == a || j == b || j == c || j == d;
    }
  }

  lemma SlotPoints1(t: Tet, a: nat)
    requires a < 4
    ensures SlotPoints(t, [a]) == {t[a]}
  {
    assert [a][1..] == [];
  }

  lemma SlotPoints2(t: Tet, a: nat, b: nat)
    requires a < 4 && b < 4
    ensures SlotPoints(t, [a, b]) == {t[a], t[b]}
  {
    assert [a, b][1..] == [b];
    SlotPoints1(t, b);
  }

  lemma SlotPoints3(t: Tet, a: nat, b: nat, d: nat)
    requires a < 4 && b < 4 && d < 4
    ensures SlotPoints(t, [a, b, d]) == {t[a], t[b], t[d]}
  {
    assert [a, b, d][1..] == [b, d];
    SlotPoints2(t, b, d);
  }

  lemma EdgeCuts1(t: Tet, c: seq<real>, p: nat, q0: nat)
    requires |c| == 4 && p < 4 && q0 < 4 && c[p] > 0.0 && c[q0] < 0.0
    ensures EdgeCuts(t, c, p, [q0]) == {Cut(t, c, p, q0)}
  {
    assert [q0][1..] == [];
  }

  lemma EdgeCuts2(t: Tet, c: seq<real>, p: nat, q0: nat, q1: nat)
    requires |c| == 4 && p < 4 && q0 < 4 && q1 < 4 && c[p] > 0.0 && c[q0] < 0.0 && c[q1] < 0.0
    ensures EdgeCuts(t, c, p, [q0, q1]) == {Cut(t, c, p, q0), Cut(t, c, p, q1)}
  {
    assert [q0, q1][1..] == [q1];
    EdgeCuts1(t, c, p, q1);
  }

  lemma EdgeCuts3(t: Tet, c: seq<real>, p: nat, q0: nat, q1: nat, q2: nat)
    requires |c| == 4 && p < 4 && q0 < 4 && q1 < 4 && q2 < 4
    requires c[p] > 0.0 && c[q0] < 0.0 && c[q1] < 0.0 && c[q2] < 0.0
    ensures EdgeCuts(t, c, p, [q0, q1, q2]) == {Cut(t, c, p, q0), Cut(t, c, p, q1), Cut(t, c, p, q2)}
  {
    assert [q0, q1, q2][1..] == [q1, q2];
    EdgeCuts2(t, c, p, q1, q2);
  }

  lemma PairCuts1(t: Tet, c: seq<real>, p: nat, qs: seq<nat>)
    requires |c| == 4 && p < 4 && c[p] > 0.0 && Slots(qs)
    requires forall k :: 0 <= k < |qs| ==> c[qs[k]] < 0.0
    ensures PairCuts(t, c, [p], qs) == EdgeCuts(t, c, p, qs)
  {
    assert [p][1..] == [];
  }

  lemma PairCuts2(t: Tet, c: seq<real>, p0: nat, p1: nat, qs: seq<nat>)
    requires |c| == 4 && p0 < 4 && p1 < 4 && c[p0] > 0.0 && c[p1] > 0.0 && Slots(qs)
    requires forall k :: 0 <= k < |qs| ==> c[qs[k]] < 0.0
    ensures PairCuts(t, c, [p0, p1], qs) == EdgeCuts(t, c, p0, qs) + EdgeCuts(t, c, p1, qs)
  {
    assert [p0, p1][1..] == [p1];
    PairCuts1(t, c, p1, qs);
  }

  lemma PairCuts3(t: Tet, c: seq<real>, p0: nat, p1: nat, p2: nat, qs: seq<nat>)
    requires |c| == 4 && p0 < 4 && p1 < 4 && p2 < 4 && Slots(qs)
    requires c[p0] > 0.0 && c[p1] > 0.0 && c[p2] > 0.0
    requires forall k :: 0 <= k < |qs| ==> c[qs[k]] < 0.0
    ensures PairCuts(t, c, [p0, p1, p2], qs)
         == EdgeCuts(t, c, p0, qs) + EdgeCuts(t, c, p1, qs) + EdgeCuts(t, c, p2, qs)
  {
    assert [p0, p1, p2][1..] == [p1, p2];
    PairCuts2(t, c, p1, p2, qs);
  }

  /**
   Glue for the per-case proofs: once the buckets are known as explicit
   slot lists, a corner set stated over those lists is the kept-plus-cut set.
   */
  lemma CornersFromLists(t: Tet, c: seq<real>, b: Buckets, r: seq<Tet>, negZero: seq<nat>)
    requires |c| == 4 && Classified(c, b) && negZero == b.neg + b.zero
    requires Corners(r) == SlotPoints(t, negZero) + PairCuts(t, c, b.pos, b.neg)
    ensures Corners(r) == KeptCorners(t, c) + CutPoints(t, c)
  {
    KeptFromBuckets(t, c, b);
    CutsFromBuckets(t, c, b);
  }

  lemma CornersOneNeg(t: Tet, c: seq<real>, p0: nat, p1: nat, p2: nat, n0: nat)
    requires |c| == 4 && p0 < p1 < p2 < 4 && n0 < 4
    requires c[p0] > 0.0 && c[p1] > 0.0 && c[p2] > 0.0 && c[n0] < 0.0
    ensures var u := t[p0 := Cut(t, c, p0, n0)][p1 := Cut(t, c, p1, n0)][p2 := Cut(t, c, p2, n0)];
      Corners([u]) == SlotPoints(t, [n0]) + PairCuts(t, c, [p0, p1, p2], [n0])
  {
    var x0, x1, x2 := Cut(t, c, p0, n0), Cut(t, c, p1, n0), Cut(t, c, p2, n0);
    PairCuts3(t, c, p0, p1, p2, [n0]);
    EdgeCuts1(t, c, p0, n0);
    EdgeCuts1(t, c, p1, n0);
    EdgeCuts1(t, c, p2, n0);
    SlotPoints1(t, n0);
    var u := t[p0 := x0][p1 := x1][p2 := x2];
    var us: seq<Tet> := [u];
    assert us[1..] == [];
    assert u[p0] == x0 && u[p1] == x1 && u[p2] == x2 && u[n0] == t[n0];
    TetCornersPerm(u, p0, p1, p2, n0);
  }

  lemma CornersPPPN(t: Tet, c: seq<real>, b: Buckets)
    requires Split(c, b, 3, 1)
    ensures Corners(ClipPPPN(t, c, b)) == KeptCorners(t, c) + CutPoints(t, c)
  {
    var p0, p1, p2, n0 := b.pos[0], b.pos[1], b.pos[2], b.neg[0];
    assert b.pos == [p0, p1, p2] && b.neg == [n0] && b.neg + b.zero == [n0];
    CornersOneNeg(t, c, p0, p1, p2, n0);
    assert Corners(ClipPPPN(t, c, b)) == SlotPoints(t, [n0]) + PairCuts(t, c, b.pos, b.neg);
    CornersFromLists(t, c, b, ClipPPPN(t, c, b), [n0]);
  }


  lemma CornersTwoTwo(t: Tet, c: seq<real>, p0: nat, p1: nat, n0: nat, n1: nat)
    requires |c| == 4 && p0 < p1 < 4 && n0 < n1 < 4
    requires c[p0] > 0.0 && c[p1] > 0.0 && c[n0] < 0.0 && c[n1] < 0.0
    ensures var i0, i1 := Cut(t, c, p0, n0), Cut(t, c, p1, n0);
      var i2, i3 := Cut(t, c, p0, n1), Cut(t, c, p1, n1);
      Corners([t[p0 := i2][p1 := i1], [t[n1], i3, i2, i1], [t[n0], i0, i1, i2]])
        == SlotPoints(t, [n0, n1]) + PairCuts(t, c, [p0, p1], [n0, n1])
  {
    var i0, i1 := Cut(t, c, p0, n0), Cut(t, c, p1, n0);
    var i2, i3 := Cut(t, c, p0, n1), Cut(t, c, p1, n1);
    PairCuts2(t, c, p0, p1, [n0, n1]);
    EdgeCuts2(t, c, p0, n0, n1);
    EdgeCuts2(t, c, p1, n0, n1);
    SlotPoints2(t, n0, n1);
    var u := t[p0 := i2][p1 := i1];
    var v: Tet, w: Tet := [t[n1], i3, i2, i1], [t[n0], i0, i1, i2];
    var r: seq<Tet> := [u, v, w];
    assert r[1..] == [v, w] && r[1..][1..] == [w] && r[1..][1..][1..] == [];
    assert Corners(r[1..][1..]) == TetCorners(w);
    assert Corners(r[1..]) == TetCorners(v) + TetCorners(w);
    assert Corners(r) == TetCorners(u) + TetCorners(v) + TetCorners(w);
    assert u[p0] == i2 && u[p1] == i1 && u[n0] == t[n0] && u[n1] == t[n1];
    TetCornersPerm(u, p0, p1, n0, n1);
  }

  lemma CornersPPNN(t: Tet, c: seq<real>, b: Buckets)
    requires Split(c, b, 2, 2)
    ensures Corners(ClipPPNN(t, c, b)) == KeptCorners(t, c) + CutPoints(t, c)
  {
    var p0, p1, n0, n1 := b.pos[0], b.pos[1], b.neg[0], b.neg[1];
    assert b.pos == [p0, p1] && b.neg == [n0, n1] && b.neg + b.zero == [n0, n1];
    CornersTwoTwo(t, c, p0, p1, n0, n1);
    assert Corners(ClipPPNN(t, c, b)) == SlotPoints(t, [n0, n1]) + PairCuts(t, c, b.pos, b.neg);
    CornersFromLists(t, c, b, ClipPPNN(t, c, b), [n0, n1]);
  }


  lemma CornersTwoOneZero(t: Tet, c: seq<real>, p0: nat, p1: nat, n0: nat, z0: nat)
    requires |c| == 4 && p0 < p1 < 4 && n0 < 4 && z0 < 4
    requires c[p0] > 0.0 && c[p1] > 0.0 && c[n0] < 0.0 && c[z0] == 0.0
    ensures var u := t[p0 := Cut(t, c, p0, n0)][p1 := Cut(t, c, p1, n0)];
      Corners([u]) == SlotPoints(t, [n0, z0]) + PairCuts(t, c, [p0, p1], [n0])
  {
    var x0, x1 := Cut(t, c, p0, n0), Cut(t, c, p1, n0);
    PairCuts2(t, c, p0, p1, [n0]);
    EdgeCuts1(t, c, p0, n0);
    EdgeCuts1(t, c, p1, n0);
    SlotPoints2(t, n0, z0);
    var u := t[p0 := x0][p1 := x1];
    var us: seq<Tet> := [u];
    assert us[1..] == [];
    assert u[p0] == x0 && u[p1] == x1 && u[n0] == t[n0] && u[z0] == t[z0];
    TetCornersPerm(u, p0, p1, n0, z0);
  }

  lemma CornersPPNZ(t: Tet, c: seq<real>, b: Buckets)
    requires Split(c, b, 2, 1)
    ensures Corners(ClipPPNZ(t, c, b)) == KeptCorners(t, c) + CutPoints(t, c)
  {
    var p0, p1, n0, z0 := b.pos[0], b.pos[1], b.neg[0], b.zero[0];
    assert b.pos == [p0, p1] && b.neg == [n0] && b.neg + b.zero == [n0, z0];
    CornersTwoOneZero(t, c, p0, p1, n0, z0);
    assert Corners(ClipPPNZ(t, c, b)) == SlotPoints(t, [n0, z0]) + PairCuts(t, c, b.pos, b.neg);
    CornersFromLists(t, c, b, ClipPPNZ(t, c, b), [n0, z0]);
  }


  lemma CornersOneThree(t: Tet, c: seq<real>, p0: nat, n0: nat, n1: nat, n2: nat)
    requires |c| == 4 && p0 < 4 && n0 < n1 < n2 < 4
    requires c[p0] > 0.0 && c[n0] < 0.0 && c[n1] < 0.0 && c[n2] < 0.0
    ensures var i0, i1, i2 := Cut(t, c, p0, n0), Cut(t, c, p0, n1), Cut(t, c, p0, n2);
      Corners([t[p0 := i0], [i0, t[n1], t[n2], i1], [t[n2], i1, i2, i0]])
        == SlotPoints(t, [n0, n1, n2]) + PairCuts(t, c, [p0], [n0, n1, n2])
  {
    var i0, i1, i2 := Cut(t, c, p0, n0), Cut(t, c, p0, n1), Cut(t, c, p0, n2);
    PairCuts1(t, c, p0, [n0, n1, n2]);
    EdgeCuts3(t, c, p0, n0, n1, n2);
    SlotPoints3(t, n0, n1, n2);
    var u := t[p0 := i0];
    var v: Tet, w: Tet := [i0, t[n1], t[n2], i1], [t[n2], i1, i2, i0];
    var r: seq<Tet> := [u, v, w];
    assert r[1..] == [v, w] && r[1..][1..] == [w] && r[1..][1..][1..] == [];
    assert Corners(r[1..][1..]) == TetCorners(w);
    assert Corners(r[1..]) == TetCorners(v) + TetCorners(w);
    assert Corners(r) == TetCorners(u) + TetCorners(v) + TetCorners(w);
    assert u[p0] == i0 && u[n0] == t[n0] && u[n1] == t[n1] && u[n2] == t[n2];
    TetCornersPerm(u, p0, n0, n1, n2);
  }

  lemma CornersPNNN(t: Tet, c: seq<real>, b: Buckets)
    requires Split(c, b, 1, 3)
    ensures Corners(ClipPNNN(t, c, b)) == KeptCorners(t, c) + CutPoints(t, c)
  {
    var p0, n0, n1, n2 := b.pos[0], b.neg[0], b.neg[1], b.neg[2];
    assert |b.zero| == 0;
    assert b.pos == [p0];
    assert b.neg == [n0, n1, n2];
    assert b.neg + b.zero == [n0, n1, n2];
    CornersOneThree(t, c, p0, n0, n1, n2);
    var i0, i1, i2 := Cut(t, c, p0, n0), Cut(t, c, p0, n1), Cut(t, c, p0, n2);
    assert ClipPNNN(t, c, b) == [t[p0 := i0], [i0, t[n1], t[n2], i1], [t[n2], i1, i2, i0]];
    assert Corners(ClipPNNN(t, c, b)) == SlotPoints(t, [n0, n1, n2]) + PairCuts(t, c, b.pos, b.neg);
    CornersFromLists(t, c, b, ClipPNNN(t, c, b), [n0, n1, n2]);
  }


  lemma CornersOneTwoZero(t: Tet, c: seq<real>, p0: nat, n0: nat, n1: nat, z0: nat)
    requires |c| == 4 && p0 < 4 && n0 < n1 < 4 && z0 < 4
    requires c[p0] > 0.0 && c[n0] < 0.0 && c[n1] < 0.0 && c[z0] == 0.0
    ensures var i0, i1 := Cut(t, c, p0, n0), Cut(t, c, p0, n1);
      Corners([t[p0 := i0], [i1, t[z0], t[n1], i0]])
        == SlotPoints(t, [n0, n1, z0]) + PairCuts(t, c, [p0], [n0, n1])
  {
    var i0, i1 := Cut(t, c, p0, n0), Cut(t, c, p0, n1);
    PairCuts1(t, c, p0, [n0, n1]);
    EdgeCuts2(t, c, p0, n0, n1);
    SlotPoints3(t, n0, n1, z0);
    var u := t[p0 := i0];
    var v: Tet := [i1, t[z0], t[n1], i0];
    var r: seq<Tet> := [u, v];
    assert r[1..] == [v] && r[1..][1..] == [];
    assert Corners(r[1..]) == TetCorners(v);
    assert Corners(r) == TetCorners(u) + TetCorners(v);
    assert u[p0] == i0 && u[n0] == t[n0] && u[n1] == t[n1] && u[z0] == t[z0];
    TetCornersPerm(u, p0, n0, n1, z0);
  }

  lemma CornersPNNZ(t: Tet, c: seq<real>, b: Buckets)
    requires Split(c, b, 1, 2)
    ensures Corners(ClipPNNZ(t, c, b)) == KeptCorners(t, c) + CutPoints(t, c)
  {
    var p0, n0, n1, z0 := b.pos[0], b.neg[0], b.neg[1], b.zero[0];
    assert b.pos == [p0] && b.neg == [n0, n1] && b.neg + b.zero == [n0, n1, z0];
    CornersOneTwoZero(t, c, p0, n0, n1, z0);
    var i0, i1 := Cut(t, c, p0, n0), Cut(t, c, p0, n1);
    assert ClipPNNZ(t, c, b) == [t[p0 := i0], [i1, t[z0], t[n1], i0]];
    assert Corners(ClipPNNZ(t, c, b)) == SlotPoints(t, [n0, n1, z0]) + PairCuts(t, c, b.pos, b.neg);
    CornersFromLists(t, c, b, ClipPNNZ(t, c, b), [n0, n1, z0]);
  }


  lemma CornersOneOneZeros(t: Tet, c: seq<real>, p0: nat, n0: nat, z0: nat, z1: nat)
    requires |c| == 4 && p0 < 4 && n0 < 4 && z0 < z1 < 4
    requires c[p0] > 0.0 && c[n0] < 0.0 && c[z0] == 0.0 && c[z1] == 0.0
    ensures Corners([t[p0 := Cut(t, c, p0, n0)]])
        == SlotPoints(t, [n0, z0, z1]) + PairCuts(t, c, [p0], [n0])
  {
    var i0 := Cut(t, c, p0, n0);
    PairCuts1(t, c, p0, [n0]);
    EdgeCuts1(t, c, p0, n0);
    SlotPoints3(t, n0, z0, z1);
    var u := t[p0 := i0];
    var us: seq<Tet> := [u];
    assert us[1..] == [];
    assert u[p0] == i0 && u[n0] == t[n0] && u[z0] == t[z0] && u[z1] == t[z1];
    TetCornersPerm(u, p0, n0, z0, z1);
  }

  lemma CornersPNZZ(t: Tet, c: seq<real>, b: Buckets)
    requires Split(c, b, 1, 1)
    ensures Corners(ClipPNZZ(t, c, b)) == KeptCorners(t, c) + CutPoints(t, c)
  {
    var p0, n0, z0, z1 := b.pos[0], b.neg[0], b.zero[0], b.zero[1];
    assert b.pos == [p0] && b.neg == [n0] && b.neg + b.zero == [n0, z0, z1];
    CornersOneOneZeros(t, c, p0, n0, z0, z1);
    assert ClipPNZZ(t, c, b) == [t[p0 := Cut(t, c, p0, n0)]];
    assert Corners(ClipPNZZ(t, c, b)) == SlotPoints(t, [n0, z0, z1]) + PairCuts(t, c, b.pos, b.neg);
    CornersFromLists(t, c, b, ClipPNZZ(t, c, b), [n0, z0, z1]);
  }


  lemma CornersPassThrough(t: Tet, c: seq<real>, b: Buckets)
    requires Split(c, b, 0, |b.neg|) && |b.neg| > 0
    ensures Corners([t]) == KeptCorners(t, c) + CutPoints(t, c)
  {
    var ts: seq<Tet> := [t];
    assert ts[1..] == [];
    assert forall j :: 0 <= j < 4 ==> c[j] <= 0.0 by {
      forall j | 0 <= j < 4 ensures c[j] <= 0.0 {
        assert j !in b.pos;
      }
    }
    assert CutPoints(t, c) == {};
    assert KeptCorners(t, c) == TetCorners(t) by {
      assert t[0] in KeptCorners(t, c);
      assert t[1] in KeptCorners(t, c);
      assert t[2] in KeptCorners(t, c);
      assert t[3] in KeptCorners(t, c);
    }
  }

  /**
   The pieces kept by `splitAndDecompose` have as their corners exactly the
   corners of `t` on or behind the plane plus the points where the edges from
   a corner in front to a corner behind cross the plane; when no corner is
   behind the plane nothing is kept.
   */
  lemma ClipVertices(pl: Plane, t: Tet)
    ensures var c := Distances(pl, t);
      && ((exists i :: 0 <= i < 4 && c[i] < 0.0) ==> Corners(Clip(pl, t)) == KeptCorners(t, c) + CutPoints(t, c))
      && ((forall i :: 0 <= i < 4 ==> c[i] >= 0.0) ==> Corners(Clip(pl, t)) == {})
  {
    var c := Distances(pl, t);
    var b := Classify(c);
    if |b.neg| == 0 {
      assert Clip(pl, t) == [];
    } else if |b.pos| == 0 {
      CornersPassThrough(t, c, b);
    } else if |b.pos| == 3 {
      CornersPPPN(t, c, b);
    } else if |b.pos| == 2 {
      if |b.neg| == 2 { CornersPPNN(t, c, b); } else { CornersPPNZ(t, c, b); }
    } else if |b.neg| == 3 {
      CornersPNNN(t, c, b);
    } else if |b.neg| == 2 {
      CornersPNNZ(t, c, b);
    } else {
      CornersPNZZ(t, c, b);
    }
  }

  /** An intersection point lies exactly on the plane. */
  lemma CutOnPlane(pl: Plane, t: Tet, p: nat, q: nat)
    requires p < 4 && q < 4
    requires SignedDistance(pl, t[p]) > 0.0 > SignedDistance(pl, t[q])
    ensures SignedDistance(pl, Cut(t, Distances(pl, t), p, q)) == 0.0
  {
    var c := Distances(pl, t);
    var w := Weights(c[p], c[q]);
    DistanceOfCombination(pl, t[p], t[q], w.0, w.1);
  }

  /** Every corner of every kept piece is on or behind the plane. */
  lemma ClipInHalfSpace(pl: Plane, t: Tet)
    ensures forall x :: x in Corners(Clip(pl, t)) ==> SignedDistance(pl, x) <= 0.0
  {
    var c := Distances(pl, t);
    ClipVertices(pl, t);
    forall x | x in Corners(Clip(pl, t)) ensures SignedDistance(pl, x) <= 0.0 {
      if x in CutPoints(t, c) {
        var p: nat, q: nat :| p < 4 && q < 4 && c[p] > 0.0 && c[q] < 0.0 && x == Cut(t, c, p, q);
        CutOnPlane(pl, t, p, q);
      } else {
        assert x in KeptCorners(t, c);
      }
    }
  }

  /**
   `u` is `t` edited in place: corners on or behind the plane keep their
   slot and position, and each corner in front is replaced by the cut of one
   of its edges to a corner behind.
   */
  ghost predicate InPlace(t: Tet, c: seq<real>, u: Tet)
    requires |c| == 4
  {
    && (forall j :: 0 <= j < 4 && c[j] <= 0.0 ==> u[j] == t[j])
    && (forall j :: 0 <= j < 4 && c[j] > 0.0 ==> exists q :: 0 <= q < 4 && c[q] < 0.0 && u[j] == Cut(t, c, j, q))
  }

  lemma FirstPPPN(t: Tet, c: seq<real>, b: Buckets)
    requires Split(c, b, 3, 1)
    ensures InPlace(t, c, ClipPPPN(t, c, b)[0])
  {
    var p0, p1, p2, n0 := b.pos[0], b.pos[1], b.pos[2], b.neg[0];
    var u := ClipPPPN(t, c, b)[0];
    forall j | 0 <= j < 4 && c[j] > 0.0
      ensures exists q :: 0 <= q < 4 && c[q] < 0.0 && u[j] == Cut(t, c, j, q)
    {
      assert j in b.pos;
      assert u[j] == Cut(t, c, j, n0);
    }
  }

  lemma FirstPPNN(t: Tet, c: seq<real>, b: Buckets)
    requires Split(c, b, 2, 2)
    ensures InPlace(t, c, ClipPPNN(t, c, b)[0])
  {
    var p0, p1, n0, n1 := b.pos[0], b.pos[1], b.neg[0], b.neg[1];
    var u := ClipPPNN(t, c, b)[0];
    forall j | 0 <= j < 4 && c[j] > 0.0
      ensures exists q :: 0 <= q < 4 && c[q] < 0.0 && u[j] == Cut(t, c, j, q)
    {
      assert j in b.pos;
      if j == p0 {
        assert u[j] == Cut(t, c, j, n1);
      } else {
        assert u[j] == Cut(t, c, j, n0);
      }
    }
  }

  lemma FirstPPNZ(t: Tet, c: seq<real>, b: Buckets)
    requires Split(c, b, 2, 1)
    ensures InPlace(t, c, ClipPPNZ(t, c, b)[0])
  {
    var p0, p1, n0 := b.pos[0], b.pos[1], b.neg[0];
    var u := ClipPPNZ(t, c, b)[0];
    forall j | 0 <= j < 4 && c[j] > 0.0
      ensures exists q :: 0 <= q < 4 && c[q] < 0.0 && u[j] == Cut(t, c, j, q)
    {
      assert j in b.pos;
      assert u[j] == Cut(t, c, j, n0);
    }
  }

  /** With one corner in front, the first piece replaces that corner only. */
  lemma FirstOnePos(t: Tet, c: seq<real>, b: Buckets, u: Tet)
    requires |c| == 4 && Classified(c, b) && |b.pos| == 1 && |b.neg| > 0
    requires u == t[b.pos[0] := Cut(t, c, b.pos[0], b.neg[0])]
    ensures InPlace(t, c, u)
  {
    var p0, n0 := b.pos[0], b.neg[0];
    forall j | 0 <= j < 4 && c[j] > 0.0
      ensures exists q :: 0 <= q < 4 && c[q] < 0.0 && u[j] == Cut(t, c, j, q)
    {
      assert j in b.pos;
      assert u[j] == Cut(t, c, j, n0);
    }
  }

  /**
   The first piece kept is always the input tetrahedron edited in place:
   only the slots in front of the plane are overwritten.
   */
  lemma ClipFirstInPlace(pl: Plane, t: Tet)
    requires exists i :: 0 <= i < 4 && SignedDistance(pl, t[i]) < 0.0
    ensures |Clip(pl, t)| > 0 && InPlace(t, Distances(pl, t), Clip(pl, t)[0])
  {
    var c := Distances(pl, t);
    var b := Classify(c);
    var i :| 0 <= i < 4 && SignedDistance(pl, t[i]) < 0.0;
    assert i in b.neg;
    if |b.pos| == 0 {
      assert Clip(pl, t)[0] == t;
      forall j | 0 <= j < 4 ensures c[j] <= 0.0 {
        assert j !in b.pos;
      }
    } else if |b.pos| == 3 {
      FirstPPPN(t, c, b);
    } else if |b.pos| == 2 {
      if |b.neg| == 2 { FirstPPNN(t, c, b); } else { FirstPPNZ(t, c, b); }
    } else if |b.neg| == 3 {
      FirstOnePos(t, c, b, ClipPNNN(t, c, b)[0]);
    } else if |b.neg| == 2 {
      FirstOnePos(t, c, b, ClipPNNZ(t, c, b)[0]);
    } else {
      FirstOnePos(t, c, b, ClipPNZZ(t, c, b)[0]);
    }
  }
}
