/**
 Clipping one tetrahedron against an oriented plane (`splitAndDecompose`):
 the part with signed distance <= 0 is kept and returned as 0 to 3
 tetrahedra, following the tetrahedron / half-space case table of Eberly's
 3D Game Engine Design.
 */
module Clipping {
  import opened Geometry

  /** The signed distances `C[i]` of the four corners. */
  function Distances(pl: Plane, t: Tet): (c: seq<real>)
    ensures |c| == 4
    ensures forall i :: 0 <= i < 4 ==> c[i] == SignedDistance(pl, t[i])
  {
    [SignedDistance(pl, t[0]), SignedDistance(pl, t[1]), SignedDistance(pl, t[2]), SignedDistance(pl, t[3])]
  }

  /** Slot labels bucketed by the sign of their signed distance. */
  datatype Buckets = Buckets(pos: seq<nat>, neg: seq<nat>, zero: seq<nat>)

  predicate Ascending(s: seq<nat>) {
    forall i, j :: 0 <= i < j < |s| ==> s[i] < s[j]
  }

  /**
   The buckets after the classification loop has visited slots `0 .. n-1`:
   each visited slot is appended to the bucket of the exact sign of its
   distance, so every slot lands in exactly one bucket.
   */
  function ClassifyPrefix(c: seq<real>, n: nat): (b: Buckets)
    requires n <= |c|
    ensures |b.pos| + |b.neg| + |b.zero| == n
  {
    if n == 0 then Buckets([], [], [])
    else
      var b := ClassifyPrefix(c, n - 1);
      var i := n - 1;
      if c[i] > 0.0 then Buckets(b.pos + [i], b.neg, b.zero)
      else if c[i] < 0.0 then Buckets(b.pos, b.neg + [i], b.zero)
      else Buckets(b.pos, b.neg, b.zero + [i])
  }

  /** Every entry of `b` is a slot below `n` whose distance has the bucket's sign. */
  ghost predicate Entries(c: seq<real>, b: Buckets, n: nat)
    requires n <= |c|
  {
    && (forall k :: 0 <= k < |b.pos| ==> b.pos[k] < n && c[b.pos[k]] > 0.0)
    && (forall k :: 0 <= k < |b.neg| ==> b.neg[k] < n && c[b.neg[k]] < 0.0)
    && (forall k :: 0 <= k < |b.zero| ==> b.zero[k] < n && c[b.zero[k]] == 0.0)
  }

  /** Every bucket entry is a visited slot of the bucket's sign. */
  lemma {:induction false} ClassifyEntries(c: seq<real>, n: nat)
    requires n <= |c|
    ensures Entries(c, ClassifyPrefix(c, n), n)
  {
    if n > 0 {
      ClassifyEntries(c, n - 1);
      var b0, i := ClassifyPrefix(c, n - 1), n - 1;
      var b := ClassifyPrefix(c, n);
      if c[i] > 0.0 {
        assert b == Buckets(b0.pos + [i], b0.neg, b0.zero);
        forall k | 0 <= k < |b.pos| ensures b.pos[k] < n && c[b.pos[k]] > 0.0 {
          if k < |b0.pos| { assert b.pos[k] == b0.pos[k]; }
        }
      } else if c[i] < 0.0 {
        assert b == Buckets(b0.pos, b0.neg + [i], b0.zero);
        forall k | 0 <= k < |b.neg| ensures b.neg[k] < n && c[b.neg[k]] < 0.0 {
          if k < |b0.neg| { assert b.neg[k] == b0.neg[k]; }
        }
      } else {
        assert b == Buckets(b0.pos, b0.neg, b0.zero + [i]);
        forall k | 0 <= k < |b.zero| ensures b.zero[k] < n && c[b.zero[k]] == 0.0 {
          if k < |b0.zero| { assert b.zero[k] == b0.zero[k]; }
        }
      }
    }
  }

  /** Slots are visited in increasing order, so every bucket is ascending. */
  lemma {:induction false} ClassifyAscending(c: seq<real>, n: nat)
    requires n <= |c|
    ensures var b := ClassifyPrefix(c, n);
      Ascending(b.pos) && Ascending(b.neg) && Ascending(b.zero)
  {
    if n > 0 {
      ClassifyAscending(c, n - 1);
      ClassifyEntries(c, n - 1);
    }
  }

  /** Every visited slot is in the bucket of its sign, and in no other. */
  lemma {:induction false} ClassifyPartition(c: seq<real>, n: nat)
    requires n <= |c|
    ensures var b := ClassifyPrefix(c, n);
      && (forall i: nat :: i in b.pos <==> i < n && c[i] > 0.0)
      && (forall i: nat :: i in b.neg <==> i < n && c[i] < 0.0)
      && (forall i: nat :: i in b.zero <==> i < n && c[i] == 0.0)
  {
    if n > 0 {
      ClassifyPartition(c, n - 1);
      var b0 := ClassifyPrefix(c, n - 1);
      var b := ClassifyPrefix(c, n);
      forall i: nat
        ensures i in b.pos <==> i < n && c[i] > 0.0
        ensures i in b.neg <==> i < n && c[i] < 0.0
        ensures i in b.zero <==> i < n && c[i] == 0.0
      {
        if i == n - 1 {
          assert i !in b0.pos && i !in b0.neg && i !in b0.zero;
        }
      }
    }
  }

  /**
   `b` classifies the four distances `c`: `pos`, `neg` and `zero`
   partition the slots {0,1,2,3} by exact sign, each in ascending slot order.
   */
  ghost predicate Classified(c: seq<real>, b: Buckets)
    requires |c| == 4
  {
    && (forall i: nat :: i in b.pos <==> i < 4 && c[i] > 0.0)
    && (forall i: nat :: i in b.neg <==> i < 4 && c[i] < 0.0)
    && (forall i: nat :: i in b.zero <==> i < 4 && c[i] == 0.0)
    && Entries(c, b, 4)
    && Ascending(b.pos) && Ascending(b.neg) && Ascending(b.zero)
    && |b.pos| + |b.neg| + |b.zero| == 4
  }

  /** The classification loop over the four corners. */
  function Classify(c: seq<real>): (b: Buckets)
    requires |c| == 4
    ensures Classified(c, b)
  {
    ClassifyPartition(c, |c|);
    ClassifyEntries(c, |c|);
    ClassifyAscending(c, |c|);
    ClassifyPrefix(c, |c|)
  }

  /**
   Interpolation weights `(w0, w1)` for the edge from a corner in front of
   the plane (distance `cp`) to one behind it (distance `cq`).
   */
  function Weights(cp: real, cq: real): (w: (real, real))
    requires cp > 0.0 > cq
    ensures w.0 + w.1 == 1.0
    ensures 0.0 < w.0 < 1.0 && 0.0 < w.1 < 1.0
    ensures w.0 * cp + w.1 * cq == 0.0
  {
    var invCDiff := 1.0 / (cp - cq);
    (-cq * invCDiff, cp * invCDiff)
  }

  /** Where the edge from slot `p` (in front) to slot `q` (behind) crosses the plane. */
  function Cut(t: Tet, c: seq<real>, p: nat, q: nat): Point
    requires |c| == 4 && p < 4 && q < 4 && c[p] > 0.0 > c[q]
  {
    var w := Weights(c[p], c[q]);
    Add(Scale(w.0, t[p]), Scale(w.1, t[q]))
  }

  /**
   The negative-side part of `t` as a list of tetrahedra. After the two
   trivial cases, dispatch is on the sign counts exactly as the source
   tests them: nPos = 3, then nPos = 2 (nNeg = 2 or not), then nPos = 1
   (nNeg = 3, nNeg = 2, or neither).
   */
  function Clip(pl: Plane, t: Tet): (r: seq<Tet>)
    ensures var b := Classify(Distances(pl, t));
      && (r == [] <==> |b.neg| == 0)
      && (|b.neg| > 0 && |b.pos| == 0 ==> r == [t])
      && |r| <= 3
      && (|b.pos| == 3 && |b.neg| == 1 ==> |r| == 1)
      && (|b.pos| == 2 && |b.neg| == 2 ==> |r| == 3)
      && (|b.pos| == 2 && |b.neg| == 1 && |b.zero| == 1 ==> |r| == 1)
      && (|b.pos| == 1 && |b.neg| == 3 ==> |r| == 3)
      && (|b.pos| == 1 && |b.neg| == 2 && |b.zero| == 1 ==> |r| == 2)
      && (|b.pos| == 1 && |b.neg| == 1 && |b.zero| == 2 ==> |r| == 1)
  {
    var c := Distances(pl, t);
    var b := Classify(c);
    if |b.neg| == 0 then []
    else if |b.pos| == 0 then [t]
    else if |b.pos| == 3 then
      // +++-
      ClipPPPN(t, c, b)
    else if |b.pos| == 2 then
      if |b.neg| == 2 then
        // ++--
        ClipPPNN(t, c, b)
      else
        // ++-0
        ClipPPNZ(t, c, b)
    else if |b.neg| == 3 then
      // +---
      ClipPNNN(t, c, b)
    else if |b.neg| == 2 then
      // +--0
      ClipPNNZ(t, c, b)
    else
      // +-00
      ClipPNZZ(t, c, b)
  }

  /** The buckets of `c`, in one of the split configurations. */
  ghost predicate Split(c: seq<real>, b: Buckets, nPos: nat, nNeg: nat) {
    |c| == 4 && Classified(c, b) && |b.pos| == nPos && |b.neg| == nNeg
  }

  function ClipPPPN(t: Tet, c: seq<real>, b: Buckets): seq<Tet>
    requires Split(c, b, 3, 1)
  {
    var n0 := b.neg[0];
    [t[b.pos[0] := Cut(t, c, b.pos[0], n0)]
      [b.pos[1] := Cut(t, c, b.pos[1], n0)]
      [b.pos[2] := Cut(t, c, b.pos[2], n0)]]
  }

  function ClipPPNN(t: Tet, c: seq<real>, b: Buckets): seq<Tet>
    requires Split(c, b, 2, 2)
  {
    var p0, p1, n0, n1 := b.pos[0], b.pos[1], b.neg[0], b.neg[1];
    var i0, i1 := Cut(t, c, p0, n0), Cut(t, c, p1, n0);
    var i2, i3 := Cut(t, c, p0, n1), Cut(t, c, p1, n1);
    [t[p0 := i2][p1 := i1], [t[n1], i3, i2, i1], [t[n0], i0, i1, i2]]
  }

  function ClipPPNZ(t: Tet, c: seq<real>, b: Buckets): seq<Tet>
    requires Split(c, b, 2, 1)
  {
    var n0 := b.neg[0];
    [t[b.pos[0] := Cut(t, c, b.pos[0], n0)][b.pos[1] := Cut(t, c, b.pos[1], n0)]]
  }

  function ClipPNNN(t: Tet, c: seq<real>, b: Buckets): seq<Tet>
    requires Split(c, b, 1, 3)
  {
    var p0 := b.pos[0];
    var i0, i1, i2 := Cut(t, c, p0, b.neg[0]), Cut(t, c, p0, b.neg[1]), Cut(t, c, p0, b.neg[2]);
    [t[p0 := i0], [i0, t[b.neg[1]], t[b.neg[2]], i1], [t[b.neg[2]], i1, i2, i0]]
  }

  function ClipPNNZ(t: Tet, c: seq<real>, b: Buckets): seq<Tet>
    requires Split(c, b, 1, 2)
  {
    var p0 := b.pos[0];
    var i0, i1 := Cut(t, c, p0, b.neg[0]), Cut(t, c, p0, b.neg[1]);
    [t[p0 := i0], [i1, t[b.zero[0]], t[b.neg[1]], i0]]
  }

  function ClipPNZZ(t: Tet, c: seq<real>, b: Buckets): seq<Tet>
    requires Split(c, b, 1, 1)
  {
    var p0 := b.pos[0];
    [t[p0 := Cut(t, c, p0, b.neg[0])]]
  }

  /**
   `splitAndDecompose`: appends the negative-side part of `t` to
   `decompTets`; what was already in the list is never touched.
   */
  function SplitAndDecompose(pl: Plane, t: Tet, decompTets: seq<Tet>): (r: seq<Tet>)
    ensures |decompTets| <= |r| <= |decompTets| + 3
    ensures r[..|decompTets|] == decompTets
    ensures |r| == |decompTets| <==> forall i :: 0 <= i < 4 ==> SignedDistance(pl, t[i]) >= 0.0
  {
    decompTets + Clip(pl, t)
  }
}
