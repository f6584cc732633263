# Moment-of-fluid geometric kernel in Dafny

This project models the three stateless routines of `include/MoFI.H`. Together they measure how much of a polyhedral mesh cell lies behind a cutting plane.

- `decomposeCell` turns a cell into tetrahedra, with every corner written relative to a reference origin `xT`.
  - A cell with four faces is read off as one tetrahedron.
  - Any other cell is fanned. A triangle face goes straight to the cell point `xC`. A larger face goes through its face centre as well.
- `splitAndDecompose` clips one tetrahedron against an oriented plane. It appends the part with signed distance `<= 0` to a list, as 0 to 3 tetrahedra.
  - The corners are classified by the exact sign of `C[i] = t[i] . n - d`.
  - Dispatch then follows the six-case table of the tetrahedron / half-space algorithm in Eberly's *3D Game Engine Design*.
- `getVolumeAndCentre` reduces a list of tetrahedra to a total unsigned volume and a volume-weighted centroid. The centroid is divided by `volume + VSMALL`.

Scalars are Dafny `real`s, so the exact-zero sign tests of the routine are modelled as written.

The modules are:

- `Geometry` (geometry.dfy): points, tetrahedra as four index-stable slots, planes, signed distance, translation of the frame.
- `Clipping` (clipping.dfy): the classification loop, the interpolation weights, the six-case table (`Clip`) and `SplitAndDecompose`.
- `ClipCorners` (clip_corners.dfy): which points the clipped pieces are made of, and which slots the first piece keeps.
- `ClipShift` (clip_shift.dfy): clipping commutes with moving the origin.
- `Volume` (volume.dfy): `getVolumeAndCentre`, its loop-free reference definition, and its algebra.
- `Decompose` (decompose.dfy): `decomposeCell` as an imperative method next to a functional reference definition.
- `Pipeline` (pipeline.dfy): decompose, clip and measure one cell; the volume found does not depend on `xT`.

## Model

| member | source | states |
|---|---|---|
| Clipping.ClassifyPrefix | include/MoFI.H:190-208 | after the loop has visited `n` slots, `nPos + nNeg + nZero == n` |
| Clipping.ClassifyEntries | include/MoFI.H:195-207 | every entry of a bucket is a visited slot whose distance has that bucket's exact sign (`> 0`, `< 0`, `== 0`) |
| Clipping.ClassifyAscending | include/MoFI.H:190-207 | `pos`, `neg` and `zero` each list their slots in strictly increasing order |
| Clipping.ClassifyPartition | include/MoFI.H:195-207 | a visited slot is in `pos` iff its distance is positive, in `neg` iff negative, in `zero` iff exactly zero, so the buckets partition the slots |
| Clipping.Classify | include/MoFI.H:190-208 | the buckets of the four distances partition {0,1,2,3} by exact sign, each ascending, with `nPos + nNeg + nZero == 4` |
| Clipping.Weights | include/MoFI.H:231-234 | for `C[p] > 0 > C[q]`: `w0 + w1 == 1`, both weights lie strictly in (0,1), and `w0*C[p] + w1*C[q] == 0` |
| Clipping.Clip | include/MoFI.H:210-373 | nothing is kept iff no corner is strictly behind the plane; with no corner in front the input comes back unchanged as the only piece; otherwise +++- gives 1 piece, ++-- 3, ++-0 1, +--- 3, +--0 2, +-00 1; never more than 3 |
| Clipping.SplitAndDecompose | include/MoFI.H:176-374 | the list grows by 0 to 3 tetrahedra and its old entries stay unchanged in front; it grows iff some corner has negative signed distance |
| ClipCorners.ClipVertices | include/MoFI.H:221-372 | when some corner is behind the plane, the corners of the pieces are exactly the input corners with distance `<= 0` plus the cut points of the edges from a corner in front to a corner behind; otherwise there are no corners |
| ClipCorners.CutOnPlane | include/MoFI.H:231-236 | every intersection point `w0*t[p] + w1*t[q]` has signed distance exactly 0 |
| ClipCorners.ClipInHalfSpace | include/MoFI.H:221-372 | every corner of every kept piece has signed distance `<= 0` |
| ClipCorners.ClipFirstInPlace | include/MoFI.H:215-372 | when some corner is behind the plane, the first piece keeps every corner with distance `<= 0` in its slot; each slot in front holds the cut of its edge to some corner behind |
| ClipShift.ClipCommutesWithShift | include/MoFI.H:176-374 | clipping the translated tetrahedron against the plane seen from the new origin gives the original pieces, translated |
| Geometry.DistanceOfCombination | include/MoFI.H:231-236 | the signed distance of a point weighted `w0, w1` with `w0 + w1 == 1` is the weighted sum of the endpoint distances |
| Geometry.ShiftPreservesDistance | include/MoFI.H:193 | moving the origin together with the plane leaves every signed distance unchanged |
| Volume.TetVolume | include/MoFI.H:143-153 | the volume of one tetrahedron is non-negative and equals plus or minus one sixth of the triple product |
| Volume.TotalVolume | include/MoFI.H:139-158 | the summed volume of a list is non-negative |
| Volume.GetVolumeAndCentre | include/MoFI.H:129-163 | the volume is the sum of the unsigned tetrahedron volumes (so `>= 0`); `(volume + VSMALL) * centre` is the volume-weighted sum of the centroids; an empty list gives volume 0 and the zero centre |
| Volume.UnitTetVolume | include/MoFI.H:144-153 | the tetrahedron of the origin and the three unit axis points has volume 1/6 |
| Volume.UnitTetCentre | include/MoFI.H:156-162 | for that tetrahedron the reported centre has all three coordinates equal to `(1/24)/(1/6 + VSMALL)`, which lies strictly between 0 and 1/4 |
| Volume.TotalVolumeAppend | include/MoFI.H:139-158 | the volume of a concatenated list is the sum of the volumes of its parts |
| Volume.MomentAppend | include/MoFI.H:139-159 | the weighted centroid sum of a concatenated list is the sum of the parts' sums |
| Volume.TetVolumeSwap | include/MoFI.H:143-153 | swapping any two corners `i < j` leaves the volume unchanged, since the corner order (the orientation) is never checked |
| Volume.SwapNegates | include/MoFI.H:143-153 | swapping any two corners negates the signed volume inside the absolute value |
| Volume.TotalVolumeShift | include/MoFI.H:144-158 | translating every tetrahedron leaves the total volume unchanged |
| Volume.MomentShift | include/MoFI.H:155-159 | translating every corner by `-s` changes the weighted centroid sum by `-s` times the total volume |
| Decompose.DecomposeCell | include/MoFI.H:41-125 | the method's list is the decomposition, whatever the list held before |
| Decompose.ScanApex | include/MoFI.H:72-85 | the scan stops at the first label of the second face that is none of the first face's first three |
| Decompose.ApexIndex | include/MoFI.H:72-85 | the index found holds a label outside the first three, and no earlier index does |
| Decompose.TetCellShape | include/MoFI.H:61-89 | a four-face cell gives exactly one tetrahedron: corners 0 to 2 are the first three points of the first face, and corner 3 is the first point of the second face outside them, all relative to `xT` |
| Decompose.TetCellCorners | include/MoFI.H:61-89 | if the first face starts with three distinct labels and the cell has four labels in all, that tetrahedron has exactly the cell's four points as corners |
| Decompose.FanCell | include/MoFI.H:90-124 | the face loop yields the fan of the cell's faces, in face order |
| Decompose.FanFace | include/MoFI.H:97-122 | one face appends that face's fan to the list and leaves the apex slot of the scratch tetrahedron at `xC - xT` |
| Decompose.EdgeTetsShape | include/MoFI.H:112-121 | a fanned face gives one tetrahedron per edge of its loop: tetrahedron `k` has point `k` in slot 0, the next point (after the last, point 0, so the closing edge is fanned too) in slot 1, the face centre in slot 2 and the apex in slot 3 |
| Decompose.FaceTetsShape | include/MoFI.H:100-122 | a face gives one tetrahedron if it is a triangle, holding its three points in order, and otherwise one per edge `k` to the next label of the loop, through the face centre; every one has corner 3 at `xC - xT` |
| Decompose.FanSize | include/MoFI.H:95-122 | the fan of a face list has the sum over faces of (1 for a triangle, else the face size) tetrahedra |
| Decompose.FanApex | include/MoFI.H:93-120 | every tetrahedron of the fan has corner 3 at `xC - xT` |
| Decompose.FanCellShape | include/MoFI.H:90-124 | a cell without four faces decomposes into as many tetrahedra as the face counts give, each with corner 3 at `xC - xT` |
| Decompose.FaceTetsShift | include/MoFI.H:100-122 | a face fanned relative to `xT` is the face fanned in place, translated by `-xT` |
| Decompose.FanShift | include/MoFI.H:95-123 | the fan of any face list relative to `xT` is the fan in place, translated by `-xT` |
| Decompose.DecompositionShift | include/MoFI.H:41-125 | `xT` only translates the decomposition: every corner moves by `-xT` and nothing else changes |
| Pipeline.ClipAll | include/MoFI.H:176-374 | clipping `k` tetrahedra into one list gives at most `3k` pieces |
| Pipeline.ClipAllShift | include/MoFI.H:176-374 | clipping a translated list against the translated plane gives the clipped list, translated |
| Pipeline.CellVolumeFrameFree | include/MoFI.H:41-158 | the volume of a decomposed cell does not depend on `xT` |
| Pipeline.ClippedVolumeFrameFree | include/MoFI.H:41-374 | the volume behind the plane, found by decomposing relative to `xT` and clipping against the plane seen from `xT`, does not depend on `xT` |

Notes on reading the code:

- **Four-face fast path.** Corners 0 to 2 are the first three labels of the first face, whatever its size. Corner 3 is the FIRST label of the second face outside those three, because the loop breaks at lines 82-83; it need not be the only one. The model follows this code.
- **Fast path with no outside label.** If the second face has no label outside the first three, the source leaves corner 3 unset (lines 73-85). The model therefore requires such a label (`TetCellReadable`).
- **The ++-- case.** The first piece keeps both negative corners and takes two cut points (lines 267-270). The other two pieces each use one negative corner and three cut points (lines 272-284). The model follows the code.
- **Centre of the unit tetrahedron.** The centre is divided by `volume + VSMALL` (line 162). So in exact arithmetic its coordinates are `(1/24)/(1/6 + VSMALL)`, a little below 1/4, not exactly 1/4. `Volume.UnitTetCentre` states this.
- **In-place edits.** The clip reads the cut points from the input tetrahedron. The source edits `tetra` in place, but no slot is read after it has been overwritten: only positive slots are written, and each after its last read. So the two agree.

## Left out

- The driver program (testMomentOfFluid/testMomentOfFluid.C). It does mesh and field I/O, logging and VTK output, and calls class methods whose source is not part of this model.
- Floating-point rounding. Scalars are exact reals, so near-zero sign flips and the rounding in `1.0/(C[p]-C[q])` are not modelled.
- `VSMALL`. It is fixed at OpenFOAM's double-precision value 1.0e-300, and the proofs use only that it is positive.
- `face::centre`. This is an OpenFOAM library routine (an area-weighted centroid), so it is a parameter `faceCentre` applied to the face's point positions.
- OpenFOAM containers (`polyMesh`, `DynamicList`, `FixedList`, `forAll`). The mesh is a record of point positions, faces as label lists and cells as face-label lists.
- Decompose.DecomposeCell: the cleared output buffer is modelled as a fresh returned list. The incoming contents `prior` are accepted and play no part in the result.
- Clipping.SplitAndDecompose: the caller's list is modelled as a value that is returned extended, not as a buffer mutated in place.
- Decompose.DecomposeCell: two four-face cells are excluded by the precondition `TetCellReadable`: one whose first face has fewer than three labels (the source reads labels 0 to 2 of it unchecked, include/MoFI.H:68-70), and one whose second face has no label outside the first face's first three. `Decomposition` and the `Pipeline` lemmas carry the same precondition. In the first case the source reads past the end of the face; in the second it leaves corner 3 uninitialised (include/MoFI.H:73-85). No value can model either.
- Decompose.TetCellShape: the case where the second face has no label outside the first three is excluded by a precondition. There the source leaves corner 3 uninitialised, and no value can model that.
- Volume conservation. No lemma states that the clipped pieces plus the complementary pieces have the volume of the input tetrahedron; it needs nonlinear real arithmetic beyond this model. What is proved instead is which points make up the pieces, that every piece lies behind the plane, and that the pieces do not depend on the frame.
- Tiling of the cell by the fan. No lemma states that the fan tiles the cell; this depends on planar faces and a star-shaped cell, which the routine does not check.
- Pipeline.ClipAll models the caller's pattern of clipping a list of tetrahedra into one list. That loop lives in class code that is not part of this model.
