/**
 Decomposition of a polyhedral cell into tetrahedra (`decomposeCell`), every
 corner written relative to a reference origin `xT`. A cell with four faces is
 read off directly as one tetrahedron; any other cell is fanned: each face
 to the cell point `xC`, and faces with more than three points also through
 their face centre.
 */
module Decompose {
  import opened Geometry

  /**
   The connectivity the routine reads: point positions, faces as loops of
   point labels, cells as lists of face labels.
   */
  datatype Mesh = Mesh(points: seq<Point>, faces: seq<seq<nat>>, cells: seq<seq<nat>>)

  /** Every label of face `f` names a point of the mesh. */
  predicate FaceInMesh(m: Mesh, f: seq<nat>) {
    forall k :: 0 <= k < |f| ==> f[k] < |m.points|
  }

  /** Cell `cellIndex` exists, and its faces and their points exist. */
  predicate CellInMesh(m: Mesh, cellIndex: nat) {
    && cellIndex < |m.cells|
    && (forall j :: 0 <= j < |m.cells[cellIndex]| ==> m.cells[cellIndex][j] < |m.faces|)
    && (forall j :: 0 <= j < |m.cells[cellIndex]| ==> FaceInMesh(m, m.faces[m.cells[cellIndex][j]]))
  }

  /** `l` is none of the first three labels of `first`. */
  predicate Outside(first: seq<nat>, l: nat)
    requires |first| >= 3
  {
    l != first[0] && l != first[1] && l != first[2]
  }

  /**
   What the four-face shortcut needs: the first face has three labels to
   read, and the second face holds a label outside them for the fourth
   corner (otherwise the source leaves that corner unset).
   */
  predicate TetCellReadable(m: Mesh, cellIndex: nat)
    requires CellInMesh(m, cellIndex)
  {
    var cell := m.cells[cellIndex];
    |cell| == 4 ==>
      var first, second := m.faces[cell[0]], m.faces[cell[1]];
      |first| >= 3 && exists k :: 0 <= k < |second| && Outside(first, second[k])
  }

  /** The position of `l`, moved to the frame with origin `xT`. */
  function Local(m: Mesh, l: nat, xT: Point): Point
    requires l < |m.points|
  {
    Sub(m.points[l], xT)
  }

  /** The positions of the points of face `f`, in loop order (what `face::centre` reads). */
  function FacePoints(m: Mesh, f: seq<nat>): (ps: seq<Point>)
    requires FaceInMesh(m, f)
    ensures |ps| == |f| && forall k :: 0 <= k < |f| ==> ps[k] == m.points[f[k]]
  {
    if f == [] then [] else FacePoints(m, f[..|f| - 1]) + [m.points[f[|f| - 1]]]
  }

  /**
   The index the fourth-corner scan stops at: the first position of `second`
   whose label is outside the first three of `first`.
   */
  function ApexIndex(first: seq<nat>, second: seq<nat>, from: nat): (i: nat)
    requires |first| >= 3 && from <= |second|
    requires exists k :: from <= k < |second| && Outside(first, second[k])
    ensures from <= i < |second| && Outside(first, second[i])
    ensures forall j :: from <= j < i ==> !Outside(first, second[j])
    decreases |second| - from
  {
    if Outside(first, second[from]) then from else ApexIndex(first, second, from + 1)
  }

  /** The one tetrahedron of a four-face cell. */
  function TetCellTet(m: Mesh, cellIndex: nat, xT: Point): Tet
    requires CellInMesh(m, cellIndex) && TetCellReadable(m, cellIndex) && |m.cells[cellIndex]| == 4
  {
    var cell := m.cells[cellIndex];
    var first, second := m.faces[cell[0]], m.faces[cell[1]];
    var i := ApexIndex(first, second, 0);
    [Local(m, first[0], xT), Local(m, first[1], xT), Local(m, first[2], xT), Local(m, second[i], xT)]
  }

  /** The slot after `i` in a loop of `n` labels: `face::nextLabel` wraps to 0 after the last. */
  function NextIndex(i: nat, n: nat): (j: nat)
    requires i < n
    ensures j < n
  {
    if i == n - 1 then 0 else i + 1
  }

  /** How many tetrahedra the fan gives a face: one for a triangle, one per edge otherwise. */
  function FaceTetCount(f: seq<nat>): nat {
    if |f| == 3 then 1 else |f|
  }

  /**
   The first `n` tetrahedra of the fan of a non-triangular face: edge `pI`
   of the loop, then the face centre `fc`, then the apex.
   */
  function EdgeTets(m: Mesh, f: seq<nat>, n: nat, fc: Point, apex: Point, xT: Point): seq<Tet>
    requires FaceInMesh(m, f) && n <= |f|
  {
    if n == 0 then []
    else EdgeTets(m, f, n - 1, fc, apex, xT) + [[Local(m, f[n - 1], xT), Local(m, f[NextIndex(n - 1, |f|)], xT), fc, apex]]
  }

  /**
   The tetrahedra fanned from face `f`: a triangle goes straight to the cell
   point; any other face gives one tetrahedron per edge, through the face centre.
   */
  function FaceTets(m: Mesh, f: seq<nat>, xC: Point, xT: Point, faceCentre: seq<Point> -> Point): seq<Tet>
    requires FaceInMesh(m, f)
  {
    var apex := Sub(xC, xT);
    if |f| == 3 then
      [[Local(m, f[0], xT), Local(m, f[1], xT), Local(m, f[2], xT), apex]]
    else
      EdgeTets(m, f, |f|, Sub(faceCentre(FacePoints(m, f)), xT), apex, xT)
  }

  /**
   One tetrahedron per edge: tetrahedron `k` runs from label `k` to the next
   label of the loop (the last one closes back to label 0), through the face
   centre to the apex.
   */
  lemma {:induction false} EdgeTetsShape(m: Mesh, f: seq<nat>, n: nat, fc: Point, apex: Point, xT: Point)
    requires FaceInMesh(m, f) && n <= |f|
    ensures var r := EdgeTets(m, f, n, fc, apex, xT);
      |r| == n &&
      forall k :: 0 <= k < n ==>
        r[k][0] == Local(m, f[k], xT) && r[k][1] == Local(m, f[NextIndex(k, |f|)], xT) &&
        r[k][2] == fc && r[k][3] == apex
  {
    if n > 0 {
      EdgeTetsShape(m, f, n - 1, fc, apex, xT);
      var r0 := EdgeTets(m, f, n - 1, fc, apex, xT);
      var u: Tet := [Local(m, f[n - 1], xT), Local(m, f[NextIndex(n - 1, |f|)], xT), fc, apex];
      var r := EdgeTets(m, f, n, fc, apex, xT);
      assert r == r0 + [u];
      forall k | 0 <= k < n
        ensures r[k][0] == Local(m, f[k], xT) && r[k][1] == Local(m, f[NextIndex(k, |f|)], xT)
        ensures r[k][2] == fc && r[k][3] == apex
      {
        if k < n - 1 {
          assert r[k] == r0[k];
        } else {
          assert r[k] == u;
        }
      }
    }
  }

  /**
   The fan of one face: as many tetrahedra as `FaceTetCount` says, each with
   apex `xC - xT`. A triangle keeps its three points in order; any other face
   gives tetrahedron `k` the edge from label `k` to the next label of the loop
   and the face centre.
   */
  lemma FaceTetsShape(m: Mesh, f: seq<nat>, xC: Point, xT: Point, faceCentre: seq<Point> -> Point)
    requires FaceInMesh(m, f)
    ensures var r := FaceTets(m, f, xC, xT, faceCentre);
      |r| == FaceTetCount(f) && forall k :: 0 <= k < |r| ==> r[k][3] == Sub(xC, xT)
    ensures var r := FaceTets(m, f, xC, xT, faceCentre);
      |f| == 3 ==>
        r[0][0] == Local(m, f[0], xT) && r[0][1] == Local(m, f[1], xT) && r[0][2] == Local(m, f[2], xT)
    ensures var r := FaceTets(m, f, xC, xT, faceCentre);
      |f| != 3 ==>
        forall k :: 0 <= k < |f| ==>
          r[k][0] == Local(m, f[k], xT) && r[k][1] == Local(m, f[NextIndex(k, |f|)], xT) &&
          r[k][2] == Sub(faceCentre(FacePoints(m, f)), xT)
  {
    if |f| != 3 {
      EdgeTetsShape(m, f, |f|, Sub(faceCentre(FacePoints(m, f)), xT), Sub(xC, xT), xT);
    }
  }

  /** Every face of the list has its points in the mesh. */
  predicate FacesInMesh(m: Mesh, fs: seq<seq<nat>>) {
    forall i :: 0 <= i < |fs| ==> FaceInMesh(m, fs[i])
  }

  /** The faces of cell `cellIndex`, in the cell's order. */
  function CellFaces(m: Mesh, cellIndex: nat): (fs: seq<seq<nat>>)
    requires CellInMesh(m, cellIndex)
    ensures |fs| == |m.cells[cellIndex]|
    ensures forall j :: 0 <= j < |fs| ==> fs[j] == m.faces[m.cells[cellIndex][j]]
    ensures FacesInMesh(m, fs)
  {
    var cell := m.cells[cellIndex];
    seq(|cell|, j requires 0 <= j < |cell| => m.faces[cell[j]])
  }

  /** The number of tetrahedra the fan gives the faces `fs`. */
  function FanCount(fs: seq<seq<nat>>): nat {
    if fs == [] then 0 else FanCount(fs[..|fs| - 1]) + FaceTetCount(fs[|fs| - 1])
  }

  /** The fan of the faces `fs`, in face order. */
  function Fan(m: Mesh, fs: seq<seq<nat>>, xC: Point, xT: Point, faceCentre: seq<Point> -> Point): seq<Tet>
    requires FacesInMesh(m, fs)
  {
    if fs == [] then []
    else Fan(m, fs[..|fs| - 1], xC, xT, faceCentre) + FaceTets(m, fs[|fs| - 1], xC, xT, faceCentre)
  }

  /** The decomposition as a whole: the shortcut for four faces, the fan otherwise. */
  function Decomposition(m: Mesh, cellIndex: nat, xC: Point, xT: Point, faceCentre: seq<Point> -> Point): seq<Tet>
    requires CellInMesh(m, cellIndex) && TetCellReadable(m, cellIndex)
  {
    var cell := m.cells[cellIndex];
    if |cell| == 4 then [TetCellTet(m, cellIndex, xT)]
    else Fan(m, CellFaces(m, cellIndex), xC, xT, faceCentre)
  }

  /**
   `decomposeCell`: the list is cleared first, so whatever `prior` held is
   not part of the result; a
   four-face cell is read off as one tetrahedron, any other cell is fanned
   face by face, reusing one scratch tetrahedron whose apex slot holds
   `xC - xT` throughout.
   */
  method DecomposeCell(m: Mesh, cellIndex: nat, xC: Point, prior: seq<Tet>, xT: Point, faceCentre: seq<Point> -> Point)
    returns (tetDecomp: seq<Tet>)
    requires CellInMesh(m, cellIndex) && TetCellReadable(m, cellIndex)
    ensures tetDecomp == Decomposition(m, cellIndex, xC, xT, faceCentre)
  {
    var cell := m.cells[cellIndex];
    if |cell| == 4 {
      var first, second := m.faces[cell[0]], m.faces[cell[1]];
      var pointI := ScanApex(first, second);
      var tmpTetra: Tet := [Local(m, first[0], xT), Local(m, first[1], xT), Local(m, first[2], xT), Local(m, second[pointI], xT)];
      tetDecomp := [tmpTetra];
    } else {
      tetDecomp := FanCell(m, cellIndex, xC, xT, faceCentre);
    }
  }

  /** The general path: the faces of the cell fanned in order. */
  method FanCell(m: Mesh, cellIndex: nat, xC: Point, xT: Point, faceCentre: seq<Point> -> Point)
    returns (tetDecomp: seq<Tet>)
    requires CellInMesh(m, cellIndex)
    ensures tetDecomp == Fan(m, CellFaces(m, cellIndex), xC, xT, faceCentre)
  {
    tetDecomp := [];
    var faces := CellFaces(m, cellIndex);
    var tmpTetra: Tet := [Origin, Origin, Origin, Sub(xC, xT)];
    var faceI := 0;
    while faceI < |faces|
      invariant 0 <= faceI <= |faces|
      invariant tetDecomp == Fan(m, faces[..faceI], xC, xT, faceCentre)
      invariant tmpTetra[3] == Sub(xC, xT)
    {
      tetDecomp, tmpTetra := FanFace(m, faces[faceI], xC, xT, faceCentre, tetDecomp, tmpTetra);
      FanStep(m, faces, faceI, xC, xT, faceCentre);
      faceI := faceI + 1;
    }
    assert faces[..faceI] == faces;
  }

  /**
   The fourth-corner scan of a four-face cell: walk the second face and stop
   at the first label outside the first face's first three.
   */
  method ScanApex(first: seq<nat>, second: seq<nat>) returns (pointI: nat)
    requires |first| >= 3
    requires exists k :: 0 <= k < |second| && Outside(first, second[k])
    ensures pointI == ApexIndex(first, second, 0)
  {
    pointI := 0;
    while pointI < |second| && !Outside(first, second[pointI])
      invariant 0 <= pointI <= |second|
      invariant forall j :: 0 <= j < pointI ==> !Outside(first, second[j])
      decreases |second| - pointI
    {
      pointI := pointI + 1;
    }
    ApexIndexFirst(first, second, pointI);
  }

  /**
   One face of the fan: appends the face's tetrahedra to `tets`, writing
   the face corners into the scratch tetrahedron and leaving its apex alone.
   */
  method FanFace(m: Mesh, checkFace: seq<nat>, xC: Point, xT: Point, faceCentre: seq<Point> -> Point,
                 tets: seq<Tet>, tmp: Tet)
    returns (tets': seq<Tet>, tmpTetra: Tet)
    requires FaceInMesh(m, checkFace) && tmp[3] == Sub(xC, xT)
    ensures tets' == tets + FaceTets(m, checkFace, xC, xT, faceCentre)
    ensures tmpTetra[3] == Sub(xC, xT)
  {
    tmpTetra := tmp;
    if |checkFace| == 3 {
      tmpTetra := tmpTetra[0 := Local(m, checkFace[0], xT)][1 := Local(m, checkFace[1], xT)][2 := Local(m, checkFace[2], xT)];
      assert tmpTetra == [Local(m, checkFace[0], xT), Local(m, checkFace[1], xT), Local(m, checkFace[2], xT), Sub(xC, xT)];
      tets' := tets + [tmpTetra];
    } else {
      tets' := tets;
      var fc := Sub(faceCentre(FacePoints(m, checkFace)), xT);
      tmpTetra := tmpTetra[2 := fc];
      var pI := 0;
      while pI < |checkFace|
        invariant 0 <= pI <= |checkFace|
        invariant tets' == tets + EdgeTets(m, checkFace, pI, fc, Sub(xC, xT), xT)
        invariant tmpTetra[2] == fc && tmpTetra[3] == Sub(xC, xT)
      {
        tmpTetra := tmpTetra[0 := Local(m, checkFace[pI], xT)][1 := Local(m, checkFace[NextIndex(pI, |checkFace|)], xT)];
        assert tmpTetra == [Local(m, checkFace[pI], xT), Local(m, checkFace[NextIndex(pI, |checkFace|)], xT), fc, Sub(xC, xT)];
        tets' := tets' + [tmpTetra];
        pI := pI + 1;
      }
    }
  }

  /** The scan with early exit stops exactly where `ApexIndex` says. */
  lemma ApexIndexFirst(first: seq<nat>, second: seq<nat>, i: nat)
    requires |first| >= 3 && i <= |second|
    requires exists k :: 0 <= k < |second| && Outside(first, second[k])
    requires forall j :: 0 <= j < i ==> !Outside(first, second[j])
    requires i == |second| || Outside(first, second[i])
    ensures i < |second| && i == ApexIndex(first, second, 0)
  {
    var a := ApexIndex(first, second, 0);
  }

  /** A fanned cell gives one tetrahedron per triangle face and one per edge of every other face. */
  lemma {:induction false} FanSize(m: Mesh, fs: seq<seq<nat>>, xC: Point, xT: Point, faceCentre: seq<Point> -> Point)
    requires FacesInMesh(m, fs)
    ensures |Fan(m, fs, xC, xT, faceCentre)| == FanCount(fs)
  {
    if fs != [] {
      var f := fs[|fs| - 1];
      FanSize(m, fs[..|fs| - 1], xC, xT, faceCentre);
      FaceTetsShape(m, f, xC, xT, faceCentre);
      var prev, fts := Fan(m, fs[..|fs| - 1], xC, xT, faceCentre), FaceTets(m, f, xC, xT, faceCentre);
      assert |prev + fts| == |prev| + |fts|;
    }
  }

  /** Fanning one more face of the list appends that face's tetrahedra. */
  lemma FanStep(m: Mesh, fs: seq<seq<nat>>, n: nat, xC: Point, xT: Point, faceCentre: seq<Point> -> Point)
    requires FacesInMesh(m, fs) && n < |fs|
    ensures Fan(m, fs[..n + 1], xC, xT, faceCentre) == Fan(m, fs[..n], xC, xT, faceCentre) + FaceTets(m, fs[n], xC, xT, faceCentre)
  {
    assert fs[..n + 1][..n] == fs[..n];
  }

  /** Every fanned tetrahedron has the cell point as its fourth corner. */
  lemma {:induction false} FanApex(m: Mesh, fs: seq<seq<nat>>, xC: Point, xT: Point, faceCentre: seq<Point> -> Point)
    requires FacesInMesh(m, fs)
    ensures forall k :: 0 <= k < |Fan(m, fs, xC, xT, faceCentre)| ==> Fan(m, fs, xC, xT, faceCentre)[k][3] == Sub(xC, xT)
  {
    if fs != [] {
      var f := fs[|fs| - 1];
      FanApex(m, fs[..|fs| - 1], xC, xT, faceCentre);
      var prev := Fan(m, fs[..|fs| - 1], xC, xT, faceCentre);
      var fts := FaceTets(m, f, xC, xT, faceCentre);
      FaceTetsShape(m, f, xC, xT, faceCentre);
      forall k | 0 <= k < |prev + fts| ensures (prev + fts)[k][3] == Sub(xC, xT) {
        if k >= |prev| {
          assert (prev + fts)[k] == fts[k - |prev|];
        }
      }
    }
  }

  /**
   The general path of `decomposeCell`: as many tetrahedra as the face
   counts say, each with corner 3 at `xC - xT`.
   */
  lemma FanCellShape(m: Mesh, cellIndex: nat, xC: Point, xT: Point, faceCentre: seq<Point> -> Point)
    requires CellInMesh(m, cellIndex) && TetCellReadable(m, cellIndex) && |m.cells[cellIndex]| != 4
    ensures var d := Decomposition(m, cellIndex, xC, xT, faceCentre);
      && |d| == FanCount(CellFaces(m, cellIndex))
      && forall k :: 0 <= k < |d| ==> d[k][3] == Sub(xC, xT)
  {
    FanSize(m, CellFaces(m, cellIndex), xC, xT, faceCentre);
    FanApex(m, CellFaces(m, cellIndex), xC, xT, faceCentre);
  }

  /** The fan of one face, computed relative to `xT`, is the fan computed in place, moved by `-xT`. */
  lemma FaceTetsShift(m: Mesh, f: seq<nat>, xC: Point, xT: Point, faceCentre: seq<Point> -> Point)
    requires FaceInMesh(m, f)
    ensures FaceTets(m, f, xC, xT, faceCentre) == ShiftAll(FaceTets(m, f, xC, Origin, faceCentre), xT)
  {
    if |f| != 3 {
      EdgeTetsShift(m, f, |f|, faceCentre(FacePoints(m, f)), xC, xT);
    }
  }

  lemma {:induction false} EdgeTetsShift(m: Mesh, f: seq<nat>, n: nat, c: Point, xC: Point, xT: Point)
    requires FaceInMesh(m, f) && n <= |f|
    ensures EdgeTets(m, f, n, Sub(c, xT), Sub(xC, xT), xT)
         == ShiftAll(EdgeTets(m, f, n, Sub(c, Origin), Sub(xC, Origin), Origin), xT)
  {
    if n > 0 {
      var a := EdgeTets(m, f, n - 1, Sub(c, xT), Sub(xC, xT), xT);
      var a0 := EdgeTets(m, f, n - 1, Sub(c, Origin), Sub(xC, Origin), Origin);
      var u: Tet := [Local(m, f[n - 1], xT), Local(m, f[NextIndex(n - 1, |f|)], xT), Sub(c, xT), Sub(xC, xT)];
      var u0: Tet := [Local(m, f[n - 1], Origin), Local(m, f[NextIndex(n - 1, |f|)], Origin), Sub(c, Origin), Sub(xC, Origin)];
      EdgeTetsShift(m, f, n - 1, c, xC, xT);
      assert u == ShiftTet(u0, xT);
      ShiftAllAppend(a0, [u0], xT);
    }
  }

  lemma {:induction false} FanShift(m: Mesh, fs: seq<seq<nat>>, xC: Point, xT: Point, faceCentre: seq<Point> -> Point)
    requires FacesInMesh(m, fs)
    ensures Fan(m, fs, xC, xT, faceCentre) == ShiftAll(Fan(m, fs, xC, Origin, faceCentre), xT)
  {
    if fs != [] {
      var f := fs[|fs| - 1];
      var prev, prev0 := Fan(m, fs[..|fs| - 1], xC, xT, faceCentre), Fan(m, fs[..|fs| - 1], xC, Origin, faceCentre);
      var fts, fts0 := FaceTets(m, f, xC, xT, faceCentre), FaceTets(m, f, xC, Origin, faceCentre);
      FanShift(m, fs[..|fs| - 1], xC, xT, faceCentre);
      FaceTetsShift(m, f, xC, xT, faceCentre);
      AppendShifted(prev, fts, prev0, fts0, xT);
    } else {
      assert ShiftAll([], xT) == [];
    }
  }

  /**
   The reference origin `xT` only translates the result: decomposing
   relative to `xT` gives the decomposition in place with every corner moved
   by `-xT`.
   */
  lemma DecompositionShift(m: Mesh, cellIndex: nat, xC: Point, xT: Point, faceCentre: seq<Point> -> Point)
    requires CellInMesh(m, cellIndex) && TetCellReadable(m, cellIndex)
    ensures Decomposition(m, cellIndex, xC, xT, faceCentre) == ShiftAll(Decomposition(m, cellIndex, xC, Origin, faceCentre), xT)
  {
    if |m.cells[cellIndex]| == 4 {
      assert forall p: Point :: Sub(Sub(p, Origin), xT) == Sub(p, xT);
    } else {
      FanShift(m, CellFaces(m, cellIndex), xC, xT, faceCentre);
    }
  }

  /** Every point label the cell's faces mention. */
  function CellLabels(m: Mesh, cellIndex: nat): set<nat>
    requires CellInMesh(m, cellIndex)
  {
    var cell := m.cells[cellIndex];
    set j, k | 0 <= j < |cell| && 0 <= k < |m.faces[cell[j]]| :: m.faces[cell[j]][k]
  }

  lemma {:induction false} SubsetCard(a: set<nat>, b: set<nat>)
    requires a <= b
    ensures |a| <= |b|
    decreases |b|
  {
    if a != {} {
      var x :| x in a;
      SubsetCard(a - {x}, b - {x});
    }
  }

  lemma SubsetSameCard(a: set<nat>, b: set<nat>)
    requires a <= b && |a| == |b|
    ensures a == b
  {
    if a != b {
      var x :| x in b && x !in a;
      SubsetCard(a, b - {x});
    }
  }

  /**
   The four-face shortcut: one tetrahedron, corners 0 to 2 the first three
   points of the first face, corner 3 the first point of the second face
   that is none of those three.
   */
  lemma TetCellShape(m: Mesh, cellIndex: nat, xC: Point, xT: Point, faceCentre: seq<Point> -> Point)
    requires CellInMesh(m, cellIndex) && TetCellReadable(m, cellIndex) && |m.cells[cellIndex]| == 4
    ensures var d := Decomposition(m, cellIndex, xC, xT, faceCentre);
      var first, second := m.faces[m.cells[cellIndex][0]], m.faces[m.cells[cellIndex][1]];
      && |d| == 1
      && d[0][0] == Local(m, first[0], xT) && d[0][1] == Local(m, first[1], xT) && d[0][2] == Local(m, first[2], xT)
      && exists k :: 0 <= k < |second| && Outside(first, second[k]) && d[0][3] == Local(m, second[k], xT)
           && forall j :: 0 <= j < k ==> !Outside(first, second[j])
  {
    var first, second := m.faces[m.cells[cellIndex][0]], m.faces[m.cells[cellIndex][1]];
    var k := ApexIndex(first, second, 0);
    assert Decomposition(m, cellIndex, xC, xT, faceCentre)[0][3] == Local(m, second[k], xT);
  }

  /**
   The four-face shortcut on a tetrahedral cell (its first face a proper
   triangle, four point labels in all): one tetrahedron whose corners are
   exactly the cell's four points, relative to `xT`.
   */
  lemma TetCellCorners(m: Mesh, cellIndex: nat, xC: Point, xT: Point, faceCentre: seq<Point> -> Point)
    requires CellInMesh(m, cellIndex) && TetCellReadable(m, cellIndex) && |m.cells[cellIndex]| == 4
    requires var first := m.faces[m.cells[cellIndex][0]];
      first[0] != first[1] && first[0] != first[2] && first[1] != first[2]
    requires |CellLabels(m, cellIndex)| == 4
    ensures var d := Decomposition(m, cellIndex, xC, xT, faceCentre);
      var first := m.faces[m.cells[cellIndex][0]];
      && |d| == 1
      && d[0][0] == Local(m, first[0], xT) && d[0][1] == Local(m, first[1], xT) && d[0][2] == Local(m, first[2], xT)
      && exists l: nat :: l < |m.points| && d[0][3] == Local(m, l, xT) && {first[0], first[1], first[2], l} == CellLabels(m, cellIndex)
  {
    var cell := m.cells[cellIndex];
    var first, second := m.faces[cell[0]], m.faces[cell[1]];
    var i := ApexIndex(first, second, 0);
    var l := second[i];
    var used := {first[0], first[1], first[2], l};
    assert used <= CellLabels(m, cellIndex) by {
      assert first[0] == m.faces[cell[0]][0];
      assert first[1] == m.faces[cell[0]][1];
      assert first[2] == m.faces[cell[0]][2];
      assert l == m.faces[cell[1]][i];
    }
    assert |used| == 4;
    SubsetSameCard(used, CellLabels(m, cellIndex));
  }
}
