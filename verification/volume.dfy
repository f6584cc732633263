/**
 Volume and centroid of a list of tetrahedra (`getVolumeAndCentre`): the
 unsigned volumes are summed, the centroids are averaged with the volumes as
 weights, and the division is guarded by adding `VSMALL`.
 */
module Volume {
  import opened Geometry

  /** OpenFOAM's `VSMALL` for double precision: a tiny positive guard. */
  const VSMALL: real := 1.0e-300

  function Abs(x: real): (r: real)
    ensures r >= 0.0 && (r == x || r == -x)
  {
    if x < 0.0 then -x else x
  }

  /** One sixth of the triple product of the edges from corner 0: orientation-signed. */
  function SignedVolume(t: Tet): real {
    (1.0 / 6.0) * Dot(Cross(Sub(t[1], t[0]), Sub(t[2], t[0])), Sub(t[3], t[0]))
  }

  /** The volume of one tetrahedron, with no check for orientation. */
  function TetVolume(t: Tet): (v: real)
    ensures v >= 0.0
    ensures v == SignedVolume(t) || v == -SignedVolume(t)
  {
    Abs(SignedVolume(t))
  }

  /** The average of the four corners. */
  function Centroid(t: Tet): Point {
    Scale(0.25, Add(Add(Add(t[0], t[1]), t[2]), t[3]))
  }

  /** The summed volume of `ts`. */
  function TotalVolume(ts: seq<Tet>): (v: real)
    ensures v >= 0.0
  {
    if ts == [] then 0.0 else TotalVolume(ts[..|ts| - 1]) + TetVolume(ts[|ts| - 1])
  }

  /** The volume-weighted sum of the centroids of `ts` (the first moment). */
  function Moment(ts: seq<Tet>): Point {
    if ts == [] then Origin
    else Add(Moment(ts[..|ts| - 1]), Scale(TetVolume(ts[|ts| - 1]), Centroid(ts[|ts| - 1])))
  }

  /** Component-wise division of a vector by a scalar. */
  function Divide(a: Point, k: real): Point
    requires k != 0.0
  {
    Point(a.x / k, a.y / k, a.z / k)
  }

  /**
   `getVolumeAndCentre`: the total volume, and the moment divided by the
   total volume plus `VSMALL`, so an empty or flat list gives the origin.
   */
  method GetVolumeAndCentre(tets: seq<Tet>) returns (volume: real, centre: Point)
    ensures volume == TotalVolume(tets) && volume >= 0.0
    ensures Scale(volume + VSMALL, centre) == Moment(tets)
    ensures tets == [] ==> volume == 0.0 && centre == Origin
  {
    volume := 0.0;
    var moment := Origin;
    var i := 0;
    while i < |tets|
      invariant 0 <= i <= |tets|
      invariant volume == TotalVolume(tets[..i])
      invariant moment == Moment(tets[..i])
    {
      var t := tets[i];
      var tV := TetVolume(t);
      var tC := Centroid(t);
      assert tets[..i + 1][..i] == tets[..i];
      volume := volume + tV;
      moment := Add(moment, Scale(tV, tC));
      i := i + 1;
    }
    assert tets[..i] == tets;
    centre := Divide(moment, volume + VSMALL);
    ScaleDivide(moment, volume + VSMALL);
    if tets == [] {
      DivideOrigin(moment, volume + VSMALL);
    }
  }

  /** The corner tetrahedron spanned by the three unit axes has volume 1/6. */
  lemma UnitTetVolume()
    ensures TetVolume([Origin, Point(1.0, 0.0, 0.0), Point(0.0, 1.0, 0.0), Point(0.0, 0.0, 1.0)]) == 1.0 / 6.0
  {
    var t: Tet := [Origin, Point(1.0, 0.0, 0.0), Point(0.0, 1.0, 0.0), Point(0.0, 0.0, 1.0)];
    assert Sub(t[1], t[0]) == Point(1.0, 0.0, 0.0);
    assert Sub(t[2], t[0]) == Point(0.0, 1.0, 0.0);
    assert Sub(t[3], t[0]) == Point(0.0, 0.0, 1.0);
    assert Cross(Point(1.0, 0.0, 0.0), Point(0.0, 1.0, 0.0)) == Point(0.0, 0.0, 1.0);
    assert Dot(Point(0.0, 0.0, 1.0), Point(0.0, 0.0, 1.0)) == 1.0;
  }

  /**
   The centre reported for the unit corner tetrahedron: because the moment is
   divided by the volume plus `VSMALL`, its three equal coordinates are a
   little below 1/4.
   */
  lemma UnitTetCentre(centre: Point)
    requires Scale(1.0 / 6.0 + VSMALL, centre) == Moment([[Origin, Point(1.0, 0.0, 0.0), Point(0.0, 1.0, 0.0), Point(0.0, 0.0, 1.0)]])
    ensures centre.x == centre.y == centre.z == (1.0 / 24.0) / (1.0 / 6.0 + VSMALL)
    ensures 0.0 < centre.x < 0.25
  {
    UnitTetMoment();
    CentreFromMoment(1.0 / 6.0 + VSMALL, centre);
  }

  lemma CentreFromMoment(v: real, centre: Point)
    requires v > 1.0 / 6.0 && Scale(v, centre) == Point(1.0 / 24.0, 1.0 / 24.0, 1.0 / 24.0)
    ensures centre.x == centre.y == centre.z == (1.0 / 24.0) / v && 0.0 < centre.x < 0.25
  {
    QuarterBelow(v, centre.x);
    QuarterBelow(v, centre.y);
    QuarterBelow(v, centre.z);
  }

  lemma UnitTetMoment()
    ensures Moment([[Origin, Point(1.0, 0.0, 0.0), Point(0.0, 1.0, 0.0), Point(0.0, 0.0, 1.0)]]) == Point(1.0 / 24.0, 1.0 / 24.0, 1.0 / 24.0)
  {
    var t: Tet := [Origin, Point(1.0, 0.0, 0.0), Point(0.0, 1.0, 0.0), Point(0.0, 0.0, 1.0)];
    assert Add(Add(Add(t[0], t[1]), t[2]), t[3]) == Point(1.0, 1.0, 1.0);
    assert Centroid(t) == Point(0.25, 0.25, 0.25);
    assert Scale(1.0 / 6.0, Point(0.25, 0.25, 0.25)) == Point(1.0 / 24.0, 1.0 / 24.0, 1.0 / 24.0);
    UnitTetVolume();
    MomentSingle(t);
  }

  lemma MomentSingle(t: Tet)
    ensures Moment([t]) == Scale(TetVolume(t), Centroid(t))
  {
    assert [t][..0] == [];
  }

  /** `x` solves `v * x == 1/24` for some `v` above 1/6 exactly when it is the quotient, which lies in (0, 1/4). */
  lemma QuarterBelow(v: real, x: real)
    requires v > 1.0 / 6.0 && v * x == 1.0 / 24.0
    ensures x == (1.0 / 24.0) / v && 0.0 < x < 0.25
  {
  }

  /** Volumes add up over concatenated lists, so the order of the list does not matter. */
  lemma {:induction false} TotalVolumeAppend(a: seq<Tet>, b: seq<Tet>)
    ensures TotalVolume(a + b) == TotalVolume(a) + TotalVolume(b)
  {
    if b == [] {
      assert a + b == a;
    } else {
      var b' := b[..|b| - 1];
      assert (a + b)[..|a + b| - 1] == a + b';
      assert (a + b)[|a + b| - 1] == b[|b| - 1];
      TotalVolumeAppend(a, b');
    }
  }

  /** Moments add up over concatenated lists. */
  lemma {:induction false} MomentAppend(a: seq<Tet>, b: seq<Tet>)
    ensures Moment(a + b) == Add(Moment(a), Moment(b))
  {
    if b == [] {
      assert a + b == a;
    } else {
      var b' := b[..|b| - 1];
      assert (a + b)[..|a + b| - 1] == a + b';
      assert (a + b)[|a + b| - 1] == b[|b| - 1];
      MomentAppend(a, b');
      AddAssociative(Moment(a), Moment(b'), Scale(TetVolume(b[|b| - 1]), Centroid(b[|b| - 1])));
    }
  }

  lemma AddAssociative(a: Point, b: Point, c: Point)
    ensures Add(Add(a, b), c) == Add(a, Add(b, c))
  {
  }

  lemma DivideOrigin(a: Point, k: real)
    requires k != 0.0 && a == Origin
    ensures Divide(a, k) == Origin
  {
  }

  lemma ScaleDivide(a: Point, k: real)
    requires k != 0.0
    ensures Scale(k, Divide(a, k)) == a
  {
    assert k * (a.x / k) == a.x;
    assert k * (a.y / k) == a.y;
    assert k * (a.z / k) == a.z;
  }

  /** Volume does not depend on the frame: moving every corner by the same offset keeps it. */
  lemma TetVolumeShift(t: Tet, s: Point)
    ensures TetVolume(ShiftTet(t, s)) == TetVolume(t)
  {
    var u := ShiftTet(t, s);
    assert Sub(u[1], u[0]) == Sub(t[1], t[0]);
    assert Sub(u[2], u[0]) == Sub(t[2], t[0]);
    assert Sub(u[3], u[0]) == Sub(t[3], t[0]);
  }

  lemma {:induction false} TotalVolumeShift(ts: seq<Tet>, s: Point)
    ensures TotalVolume(ShiftAll(ts, s)) == TotalVolume(ts)
  {
    if ts != [] {
      var n := |ts| - 1;
      assert ShiftAll(ts, s)[..n] == ShiftAll(ts[..n], s);
      TotalVolumeShift(ts[..n], s);
      TetVolumeShift(ts[n], s);
    }
  }

  /**
   Swapping any two corners leaves the (unsigned) volume unchanged: the
   corner order, and so the orientation, is never checked.
   */
  lemma TetVolumeSwap(t: Tet, i: nat, j: nat)
    requires i < j < 4
    ensures TetVolume(t[i := t[j]][j := t[i]]) == TetVolume(t)
  {
    SwapNegates(t, i, j);
  }

  /** Swapping two corners reverses the orientation: the signed volume changes sign. */
  lemma SwapNegates(t: Tet, i: nat, j: nat)
    requires i < j < 4
    ensures SignedVolume(t[i := t[j]][j := t[i]]) == -SignedVolume(t)
  {
    var u: Tet := t[i := t[j]][j := t[i]];
    var a, b, c := Sub(t[1], t[0]), Sub(t[2], t[0]), Sub(t[3], t[0]);
    if i == 0 && j == 1 {
      assert Sub(u[1], u[0]) == Scale(-1.0, a) && Sub(u[2], u[0]) == Sub(b, a) && Sub(u[3], u[0]) == Sub(c, a);
      TripleFirst(a, b, c);
    } else if i == 0 && j == 2 {
      assert Sub(u[1], u[0]) == Sub(a, b) && Sub(u[2], u[0]) == Scale(-1.0, b) && Sub(u[3], u[0]) == Sub(c, b);
      TripleSecond(a, b, c);
    } else if i == 0 {
      assert Sub(u[1], u[0]) == Sub(a, c) && Sub(u[2], u[0]) == Sub(b, c) && Sub(u[3], u[0]) == Scale(-1.0, c);
      TripleThird(a, b, c);
    } else if i == 1 && j == 2 {
      assert Sub(u[1], u[0]) == b && Sub(u[2], u[0]) == a && Sub(u[3], u[0]) == c;
      TripleSwapAB(a, b, c);
    } else if i == 1 {
      assert Sub(u[1], u[0]) == c && Sub(u[2], u[0]) == b && Sub(u[3], u[0]) == a;
      TripleSwapAC(a, b, c);
    } else {
      assert Sub(u[1], u[0]) == a && Sub(u[2], u[0]) == c && Sub(u[3], u[0]) == b;
      TripleSwapBC(a, b, c);
    }
  }

  lemma TripleFirst(a: Point, b: Point, c: Point)
    ensures Dot(Cross(Scale(-1.0, a), Sub(b, a)), Sub(c, a)) == -Dot(Cross(a, b), c)
  {
  }

  lemma TripleSecond(a: Point, b: Point, c: Point)
    ensures Dot(Cross(Sub(a, b), Scale(-1.0, b)), Sub(c, b)) == -Dot(Cross(a, b), c)
  {
  }

  lemma TripleThird(a: Point, b: Point, c: Point)
    ensures Dot(Cross(Sub(a, c), Sub(b, c)), Scale(-1.0, c)) == -Dot(Cross(a, b), c)
  {
  }

  lemma TripleSwapAB(a: Point, b: Point, c: Point)
    ensures Dot(Cross(b, a), c) == -Dot(Cross(a, b), c)
  {
  }

  lemma TripleSwapAC(a: Point, b: Point, c: Point)
    ensures Dot(Cross(c, b), a) == -Dot(Cross(a, b), c)
  {
  }

  lemma TripleSwapBC(a: Point, b: Point, c: Point)
    ensures Dot(Cross(a, c), b) == -Dot(Cross(a, b), c)
  {
  }

  /** The centroid moves with the frame. */
  lemma CentroidShift(t: Tet, s: Point)
    ensures Centroid(ShiftTet(t, s)) == Sub(Centroid(t), s)
  {
  }

  lemma MomentStep(m: Point, tv: real, v: real, c: Point, s: Point)
    ensures Add(Sub(m, Scale(tv, s)), Scale(v, Sub(c, s))) == Sub(Add(m, Scale(v, c)), Scale(tv + v, s))
  {
    assert v * (c.x - s.x) == v * c.x - v * s.x;
    assert v * (c.y - s.y) == v * c.y - v * s.y;
    assert v * (c.z - s.z) == v * c.z - v * s.z;
    assert (tv + v) * s.x == tv * s.x + v * s.x;
    assert (tv + v) * s.y == tv * s.y + v * s.y;
    assert (tv + v) * s.z == tv * s.z + v * s.z;
  }

  /**
   Moving every corner by `-s` moves the first moment by `-s` times the total
   volume, so the centre found in a shifted frame is the shifted centre.
   */
  lemma {:induction false} MomentShift(ts: seq<Tet>, s: Point)
    ensures Moment(ShiftAll(ts, s)) == Sub(Moment(ts), Scale(TotalVolume(ts), s))
  {
    if ts == [] {
      assert ShiftAll(ts, s) == [];
    } else {
      var n := |ts| - 1;
      var us := ShiftAll(ts, s);
      assert us[..n] == ShiftAll(ts[..n], s);
      MomentShift(ts[..n], s);
      TetVolumeShift(ts[n], s);
      CentroidShift(ts[n], s);
      MomentStep(Moment(ts[..n]), TotalVolume(ts[..n]), TetVolume(ts[n]), Centroid(ts[n]), s);
    }
  }
}
