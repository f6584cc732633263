/**
 How the three routines compose for one cell: decompose relative to `xT`,
 clip every tetrahedron, appending to one list, and reduce the list to a
 volume. The reference origin only moves the pieces, so the volumes found
 do not depend on it.
 */
module Pipeline {
  import opened Geometry
  import opened Clipping
  import opened ClipShift
  import opened Volume
  import opened Decompose

  /** Clipping a list of tetrahedra one after another into a single list, as `splitAndDecompose` is meant to be called. */
  function ClipAll(pl: Plane, ts: seq<Tet>): (r: seq<Tet>)
    ensures |r| <= 3 * |ts|
  {
    if ts == [] then [] else SplitAndDecompose(pl, ts[|ts| - 1], ClipAll(pl, ts[..|ts| - 1]))
  }

  /** Clipping in a moved frame gives the clipped pieces moved the same way. */
  lemma {:induction false} ClipAllShift(pl: Plane, ts: seq<Tet>, s: Point)
    ensures ClipAll(ShiftPlane(pl, s), ShiftAll(ts, s)) == ShiftAll(ClipAll(pl, ts), s)
  {
    if ts != [] {
      var n := |ts| - 1;
      assert ShiftAll(ts, s)[..n] == ShiftAll(ts[..n], s);
      ClipAllShift(pl, ts[..n], s);
      ClipCommutesWithShift(pl, ts[n], s);
      ShiftAllAppend(ClipAll(pl, ts[..n]), Clip(pl, ts[n]), s);
    }
  }

  /** The volume of a decomposed cell does not depend on the reference origin `xT`. */
  lemma CellVolumeFrameFree(m: Mesh, cellIndex: nat, xC: Point, xT: Point, faceCentre: seq<Point> -> Point)
    requires CellInMesh(m, cellIndex) && TetCellReadable(m, cellIndex)
    ensures TotalVolume(Decomposition(m, cellIndex, xC, xT, faceCentre))
         == TotalVolume(Decomposition(m, cellIndex, xC, Origin, faceCentre))
  {
    DecompositionShift(m, cellIndex, xC, xT, faceCentre);
    TotalVolumeShift(Decomposition(m, cellIndex, xC, Origin, faceCentre), xT);
  }

  /**
   The volume behind a plane, found by decomposing relative to `xT` and
   clipping against the plane seen from `xT`, is the same for every `xT`.
   */
  lemma ClippedVolumeFrameFree(m: Mesh, cellIndex: nat, xC: Point, xT: Point, faceCentre: seq<Point> -> Point, pl: Plane)
    requires CellInMesh(m, cellIndex) && TetCellReadable(m, cellIndex)
    ensures TotalVolume(ClipAll(ShiftPlane(pl, xT), Decomposition(m, cellIndex, xC, xT, faceCentre)))
         == TotalVolume(ClipAll(pl, Decomposition(m, cellIndex, xC, Origin, faceCentre)))
  {
    var d0 := Decomposition(m, cellIndex, xC, Origin, faceCentre);
    DecompositionShift(m, cellIndex, xC, xT, faceCentre);
    ClipAllShift(pl, d0, xT);
    TotalVolumeShift(ClipAll(pl, d0), xT);
  }
}
