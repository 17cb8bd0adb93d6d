/**
 * The template meshes drawn once per instance: the vertex and index count
 * table, the index part of the eight mesh writers, and the layout that packs
 * the four meshes of one style into shared vertex and index buffers.
 *
 * Each writer is specified by the list of indices it stores for a given
 * vertex offset, built the way the writer's loops walk faces, rows, cells
 * and segments; every stored index is the vertex offset plus a vertex
 * number of the mesh, cast to 16 bits.  The lemmas show that every list has
 * exactly the table's index count and, when the mesh's vertices sit below
 * 2^16, names only that mesh's vertices.
 */
module Meshes {
  import opened Header
  import opened Buffers
  import opened Emit

  /** A 16-bit index as stored in the index buffer. */
  type Index = x: int | 0 <= x < 0x1_0000

  /** The truncating cast to a 16-bit index. */
  function U16(x: nat): (r: Index)
    ensures x < 0x1_0000 ==> r == x
  {
    if x < 0x1_0000 then x else x % 0x1_0000
  }

  /** Every element of `s` lies in `[lo, hi)`. */
  ghost predicate Within(s: seq<Index>, lo: nat, hi: nat)
  {
    |s| == 0 || (lo <= s[0] < hi && Within(s[1..], lo, hi))
  }

  /** A run whose every element lies in `[lo, hi)` is within it. */
  lemma {:induction false} WithinAll(s: seq<Index>, lo: nat, hi: nat)
    requires forall k :: 0 <= k < |s| ==> lo <= s[k] < hi
    ensures Within(s, lo, hi)
  {
    if |s| > 0 {
      WithinAll(s[1..], lo, hi);
    }
  }

  /** Element `k` of a run within `[lo, hi)` lies in it. */
  lemma {:induction false} WithinAt(s: seq<Index>, lo: nat, hi: nat, k: nat)
    requires Within(s, lo, hi) && k < |s|
    ensures lo <= s[k] < hi
  {
    if k > 0 {
      WithinAt(s[1..], lo, hi, k - 1);
    }
  }

  /** A run within a range is within any range around it. */
  lemma {:induction false} WithinWiden(s: seq<Index>, lo: nat, hi: nat, lo': nat, hi': nat)
    requires Within(s, lo, hi) && lo' <= lo && hi <= hi'
    ensures Within(s, lo', hi')
  {
    if |s| > 0 {
      WithinWiden(s[1..], lo, hi, lo', hi');
    }
  }

  /** Two runs within a range are, one after the other, within it. */
  lemma {:induction false} WithinAppend(a: seq<Index>, b: seq<Index>, lo: nat, hi: nat)
    requires Within(a, lo, hi) && Within(b, lo, hi)
    ensures Within(a + b, lo, hi)
  {
    if |a| == 0 {
      assert a + b == b;
    } else {
      assert (a + b)[1..] == a[1..] + b;
      WithinAppend(a[1..], b, lo, hi);
    }
  }

  /** Runs over adjacent vertex ranges join into a run over their union. */
  lemma {:induction false} JoinWithin(a: seq<Index>, b: seq<Index>, lo: nat, mid: nat, hi: nat)
    requires lo <= mid <= hi && Within(a, lo, mid) && Within(b, mid, hi)
    ensures Within(a + b, lo, hi)
  {
    WithinWiden(a, lo, mid, lo, hi);
    WithinWiden(b, mid, hi, lo, hi);
    WithinAppend(a, b, lo, hi);
  }

  // ---------------------------------------------------------------------
  // The count table

  const SphereSub: nat := 6
  const SegmentCount: nat := 18
  const FaceCount: nat := 6

  const FilledBoxVertexCount: nat := 24       // 4 * 6
  const FilledBoxIndexCount: nat := 36        // 6 * 6
  const FilledSphereVertexCount: nat := 294   // 6 * (1 + SphereSub) * (1 + SphereSub)
  const FilledSphereIndexCount: nat := 1296   // 6 * 6 * SphereSub * SphereSub
  const FilledConeVertexCount: nat := 55      // 3 * SegmentCount + 1
  const FilledConeIndexCount: nat := 162      // 9 * SegmentCount
  const FilledCylinderVertexCount: nat := 74  // 4 * SegmentCount + 2
  const FilledCylinderIndexCount: nat := 216  // 12 * SegmentCount
  const WireBoxVertexCount: nat := 8
  const WireBoxIndexCount: nat := 24          // 2 * 12
  const WireSphereVertexCount: nat := 294     // 6 * (1 + SphereSub) * (1 + SphereSub)
  const WireSphereIndexCount: nat := 1008     // 6 * 4 * (1 + SphereSub) * SphereSub
  const WireConeVertexCount: nat := 19        // SegmentCount + 1
  const WireConeIndexCount: nat := 72         // 4 * SegmentCount
  const WireCylinderVertexCount: nat := 36    // 2 * SegmentCount
  const WireCylinderIndexCount: nat := 108    // 6 * SegmentCount

  /** The vertex count column of the mesh description table. */
  function VertexCount(style: Bit, mesh: nat): nat
    requires mesh < MeshCount
  {
    if style == StyleFilled then
      [FilledBoxVertexCount, FilledSphereVertexCount, FilledConeVertexCount, FilledCylinderVertexCount][mesh]
    else
      [WireBoxVertexCount, WireSphereVertexCount, WireConeVertexCount, WireCylinderVertexCount][mesh]
  }

  /** The index count column of the mesh description table. */
  function IndexCount(style: Bit, mesh: nat): nat
    requires mesh < MeshCount
  {
    if style == StyleFilled then
      [FilledBoxIndexCount, FilledSphereIndexCount, FilledConeIndexCount, FilledCylinderIndexCount][mesh]
    else
      [WireBoxIndexCount, WireSphereIndexCount, WireConeIndexCount, WireCylinderIndexCount][mesh]
  }

  // ---------------------------------------------------------------------
  // Shared index patterns

  /** A quad as the triangles (i0, i1, i2) and (i3, i2, i1). */
  function Quad(i0: nat, i1: nat, i2: nat, i3: nat): seq<Index>
  {
    [U16(i0), U16(i1), U16(i2), U16(i3), U16(i2), U16(i1)]
  }

  /** The next segment around a ring of `SegmentCount`: the last one wraps to the first. */
  function NextSegment(i: nat): (r: nat)
    ensures i < SegmentCount ==> r == (i + 1) % SegmentCount
  {
    if i + 1 < SegmentCount then i + 1 else (i + 1) % SegmentCount
  }

  /**
   * Triangle `i` of a fan closing a ring whose rim vertices start at `base`
   * and whose centre is `base + SegmentCount`; `reversed` swaps the two rim
   * vertices, which flips the winding.
   */
  function CapTriangle(base: nat, i: nat, reversed: bool): seq<Index>
  {
    var i0 := base + i;
    var i1 := base + NextSegment(i);
    var i2 := base + SegmentCount;
    if reversed then [U16(i1), U16(i0), U16(i2)] else [U16(i0), U16(i1), U16(i2)]
  }

  /** The first `n` fan triangles. */
  function CapFan(base: nat, n: nat, reversed: bool): (r: seq<Index>)
    ensures |r| == 3 * n
  {
    if n == 0 then [] else CapFan(base, n - 1, reversed) + CapTriangle(base, n - 1, reversed)
  }

  lemma {:induction false} CapFanWithin(base: nat, n: nat, reversed: bool)
    requires n <= SegmentCount && base + SegmentCount < 0x1_0000
    ensures Within(CapFan(base, n, reversed), base, base + SegmentCount + 1)
  {
    if n > 0 {
      CapFanWithin(base, n - 1, reversed);
      WithinAll(CapTriangle(base, n - 1, reversed), base, base + SegmentCount + 1);
      WithinAppend(CapFan(base, n - 1, reversed), CapTriangle(base, n - 1, reversed), base, base + SegmentCount + 1);
    }
  }

  /** The loop storing the fan triangles of a cap, one after another. */
  method WriteCapFan(base: nat, reversed: bool) returns (indices: seq<Index>)
    ensures indices == CapFan(base, SegmentCount, reversed)
  {
    indices := [];
    var i := 0;
    while i < SegmentCount
      invariant i <= SegmentCount
      invariant indices == CapFan(base, i, reversed)
    {
      var i0 := base + i;
      var i1 := base + NextSegment(i);
      var i2 := base + SegmentCount;
      if reversed {
        indices := indices + [U16(i1), U16(i0), U16(i2)];
      } else {
        indices := indices + [U16(i0), U16(i1), U16(i2)];
      }
      i := i + 1;
    }
  }

  // ---------------------------------------------------------------------
  // Filled box: four vertices and one quad per face

  /** The quad of face `face`, whose vertices are the four after `vertexOffset + 4 face`. */
  function FilledBoxFace(vertexOffset: nat, face: nat): seq<Index>
  {
    var i := vertexOffset + 4 * face;
    Quad(i, i + 1, i + 2, i + 3)
  }

  /** The first `n` faces. */
  function FilledBoxFaces(vertexOffset: nat, n: nat): (r: seq<Index>)
    ensures |r| == 6 * n
  {
    if n == 0 then [] else FilledBoxFaces(vertexOffset, n - 1) + FilledBoxFace(vertexOffset, n - 1)
  }

  lemma {:induction false} FilledBoxFacesWithin(vertexOffset: nat, n: nat)
    requires vertexOffset + 4 * n <= 0x1_0000
    ensures Within(FilledBoxFaces(vertexOffset, n), vertexOffset, vertexOffset + 4 * n)
  {
    if n > 0 {
      var hi := vertexOffset + 4 * n;
      FilledBoxFacesWithin(vertexOffset, n - 1);
      WithinWiden(FilledBoxFaces(vertexOffset, n - 1), vertexOffset, vertexOffset + 4 * (n - 1), vertexOffset, hi);
      WithinAll(FilledBoxFace(vertexOffset, n - 1), vertexOffset, hi);
      WithinAppend(FilledBoxFaces(vertexOffset, n - 1), FilledBoxFace(vertexOffset, n - 1), vertexOffset, hi);
    }
  }

  /** The indices `imdd_write_filled_box` stores, in order: one quad per face. */
  method WriteFilledBox(vertexOffset: nat) returns (indices: seq<Index>)
    ensures indices == FilledBoxFaces(vertexOffset, FaceCount)
  {
    indices := [];
    var face := 0;
    while face < FaceCount
      invariant face <= FaceCount
      invariant indices == FilledBoxFaces(vertexOffset, face)
    {
      var i := vertexOffset + 4 * face;
      indices := indices + [U16(i + 0), U16(i + 1), U16(i + 2), U16(i + 3), U16(i + 2), U16(i + 1)];
      face := face + 1;
    }
  }

  // ---------------------------------------------------------------------
  // Filled sphere: a 7 x 7 grid of vertices per cube face, 6 x 6 quads

  /** The quad whose first vertex is `i0`, in a grid of rows of 1 + SphereSub. */
  function FilledSphereCell(i0: nat): seq<Index>
  {
    var i2 := i0 + (1 + SphereSub);
    Quad(i0, i0 + 1, i2, i2 + 1)
  }

  /** The first `x` cells of the row starting at `r0`. */
  function FilledSphereRow(r0: nat, x: nat): (r: seq<Index>)
    ensures |r| == 6 * x
  {
    if x == 0 then [] else FilledSphereRow(r0, x - 1) + FilledSphereCell(r0 + (x - 1))
  }

  /** The first `y` rows of the face starting at `f0`. */
  function FilledSphereRows(f0: nat, y: nat): (r: seq<Index>)
    ensures |r| == 36 * y
  {
    if y == 0 then [] else FilledSphereRows(f0, y - 1) + FilledSphereRow(f0 + 7 * (y - 1), SphereSub)
  }

  /** The first `n` faces. */
  function FilledSphereFaces(vertexOffset: nat, n: nat): (r: seq<Index>)
    ensures |r| == 216 * n
  {
    if n == 0 then [] else FilledSphereFaces(vertexOffset, n - 1) + FilledSphereRows(vertexOffset + 49 * (n - 1), SphereSub)
  }

  lemma {:induction false} FilledSphereRowWithin(r0: nat, x: nat)
    requires r0 + x + 8 <= 0x1_0000
    ensures Within(FilledSphereRow(r0, x), r0, r0 + x + 8)
  {
    if x > 0 {
      var hi := r0 + x + 8;
      FilledSphereRowWithin(r0, x - 1);
      WithinWiden(FilledSphereRow(r0, x - 1), r0, r0 + (x - 1) + 8, r0, hi);
      WithinAll(FilledSphereCell(r0 + (x - 1)), r0, hi);
      WithinAppend(FilledSphereRow(r0, x - 1), FilledSphereCell(r0 + (x - 1)), r0, hi);
    }
  }

  lemma {:induction false} FilledSphereRowsWithin(f0: nat, y: nat)
    requires y <= SphereSub && f0 + 49 <= 0x1_0000
    ensures Within(FilledSphereRows(f0, y), f0, f0 + 49)
  {
    if y > 0 {
      var r0 := f0 + 7 * (y - 1);
      FilledSphereRowsWithin(f0, y - 1);
      FilledSphereRowWithin(r0, SphereSub);
      WithinWiden(FilledSphereRow(r0, SphereSub), r0, r0 + SphereSub + 8, f0, f0 + 49);
      WithinAppend(FilledSphereRows(f0, y - 1), FilledSphereRow(r0, SphereSub), f0, f0 + 49);
    }
  }

  lemma {:induction false} FilledSphereFacesWithin(vertexOffset: nat, n: nat)
    requires vertexOffset + 49 * n <= 0x1_0000
    ensures Within(FilledSphereFaces(vertexOffset, n), vertexOffset, vertexOffset + 49 * n)
  {
    if n > 0 {
      FilledSphereFacesWithin(vertexOffset, n - 1);
      FilledSphereFaceStep(vertexOffset, n);
    }
  }

  /** Face `n - 1` appends indices of its own 49 vertices after the faces before it. */
  lemma {:induction false} FilledSphereFaceStep(vertexOffset: nat, n: nat)
    requires n > 0 && vertexOffset + 49 * n <= 0x1_0000
    requires Within(FilledSphereFaces(vertexOffset, n - 1), vertexOffset, vertexOffset + 49 * (n - 1))
    ensures Within(FilledSphereFaces(vertexOffset, n), vertexOffset, vertexOffset + 49 * n)
  {
    var f0 := vertexOffset + 49 * (n - 1);
    FilledSphereRowsWithin(f0, SphereSub);
    assert f0 + 49 == vertexOffset + 49 * n;
    JoinWithin(FilledSphereFaces(vertexOffset, n - 1), FilledSphereRows(f0, SphereSub), vertexOffset, f0, f0 + 49);
  }

  /** One row of a face, whose first vertex is `r0`: the loop over x. */
  method WriteFilledSphereRow(r0: nat) returns (indices: seq<Index>)
    ensures indices == FilledSphereRow(r0, SphereSub)
  {
    indices := [];
    var x := 0;
    while x < SphereSub
      invariant x <= SphereSub
      invariant indices == FilledSphereRow(r0, x)
    {
      var i0 := r0 + x;
      var i1 := i0 + 1;
      var i2 := i0 + (1 + SphereSub);
      var i3 := i2 + 1;
      indices := indices + [U16(i0), U16(i1), U16(i2), U16(i3), U16(i2), U16(i1)];
      x := x + 1;
    }
  }

  /** The rows of one face: the loop over y. */
  method WriteFilledSphereFace(faceVertexOffset: nat) returns (indices: seq<Index>)
    ensures indices == FilledSphereRows(faceVertexOffset, SphereSub)
  {
    indices := [];
    var y := 0;
    while y < SphereSub
      invariant y <= SphereSub
      invariant indices == FilledSphereRows(faceVertexOffset, y)
    {
      var r0 := faceVertexOffset + (1 + SphereSub) * y;
      assert r0 == faceVertexOffset + 7 * y;
      var row := WriteFilledSphereRow(r0);
      indices := indices + row;
      y := y + 1;
    }
  }

  /** The indices `imdd_write_filled_sphere` stores, in order: the loop over faces. */
  method WriteFilledSphere(vertexOffset: nat) returns (indices: seq<Index>)
    ensures indices == FilledSphereFaces(vertexOffset, FaceCount)
  {
    indices := [];
    var face := 0;
    while face < FaceCount
      invariant face <= FaceCount
      invariant indices == FilledSphereFaces(vertexOffset, face)
    {
      var faceVertexOffset := vertexOffset + face * ((1 + SphereSub) * (1 + SphereSub));
      assert faceVertexOffset == vertexOffset + 49 * face;
      var rows := WriteFilledSphereFace(faceVertexOffset);
      indices := indices + rows;
      face := face + 1;
    }
  }

  // ---------------------------------------------------------------------
  // Filled cone: a quad per segment around the apex, then a fan for the cap

  /** Side quad `i`: rim vertex 2i and apex vertex 2i + 1, joined to the next segment's pair. */
  function ConeSide(vertexOffset: nat, i: nat): seq<Index>
  {
    var i0 := vertexOffset + 2 * i;
    var i2 := vertexOffset + 2 * NextSegment(i);
    Quad(i0, i0 + 1, i2, i2 + 1)
  }

  function ConeSides(vertexOffset: nat, n: nat): (r: seq<Index>)
    ensures |r| == 6 * n
  {
    if n == 0 then [] else ConeSides(vertexOffset, n - 1) + ConeSide(vertexOffset, n - 1)
  }

  lemma {:induction false} ConeSidesWithin(vertexOffset: nat, n: nat)
    requires n <= SegmentCount && vertexOffset + 2 * SegmentCount <= 0x1_0000
    ensures Within(ConeSides(vertexOffset, n), vertexOffset, vertexOffset + 2 * SegmentCount)
  {
    if n > 0 {
      ConeSidesWithin(vertexOffset, n - 1);
      ConeSideStep(vertexOffset, n);
    }
  }

  lemma {:induction false} ConeSideStep(vertexOffset: nat, n: nat)
    requires 0 < n <= SegmentCount && vertexOffset + 2 * SegmentCount <= 0x1_0000
    requires Within(ConeSides(vertexOffset, n - 1), vertexOffset, vertexOffset + 2 * SegmentCount)
    ensures Within(ConeSides(vertexOffset, n), vertexOffset, vertexOffset + 2 * SegmentCount)
  {
    WithinAll(ConeSide(vertexOffset, n - 1), vertexOffset, vertexOffset + 2 * SegmentCount);
    WithinAppend(ConeSides(vertexOffset, n - 1), ConeSide(vertexOffset, n - 1), vertexOffset, vertexOffset + 2 * SegmentCount);
  }

  function FilledConeIndices(vertexOffset: nat): (r: seq<Index>)
    ensures |r| == FilledConeIndexCount
  {
    ConeSides(vertexOffset, SegmentCount) + CapFan(vertexOffset + 2 * SegmentCount, SegmentCount, false)
  }

  lemma {:induction false} FilledConeWithin(vertexOffset: nat)
    requires vertexOffset + FilledConeVertexCount <= 0x1_0000
    ensures Within(FilledConeIndices(vertexOffset), vertexOffset, vertexOffset + FilledConeVertexCount)
  {
    var capBase := vertexOffset + 2 * SegmentCount;
    var hi := vertexOffset + FilledConeVertexCount;
    ConeSidesWithin(vertexOffset, SegmentCount);
    CapFanWithin(capBase, SegmentCount, false);
    WithinWiden(ConeSides(vertexOffset, SegmentCount), vertexOffset, capBase, vertexOffset, hi);
    WithinWiden(CapFan(capBase, SegmentCount, false), capBase, capBase + SegmentCount + 1, vertexOffset, hi);
    WithinAppend(ConeSides(vertexOffset, SegmentCount), CapFan(capBase, SegmentCount, false), vertexOffset, hi);
  }

  /** The indices `imdd_write_filled_cone` stores, in order: the side quads, then the cap. */
  method WriteFilledCone(vertexOffset: nat) returns (indices: seq<Index>)
    ensures indices == FilledConeIndices(vertexOffset)
  {
    indices := [];
    var i := 0;
    while i < SegmentCount
      invariant i <= SegmentCount
      invariant indices == ConeSides(vertexOffset, i)
    {
      var i0 := vertexOffset + 2 * i;
      var i1 := i0 + 1;
      var i2 := vertexOffset + 2 * NextSegment(i);
      var i3 := i2 + 1;
      indices := indices + [U16(i0), U16(i1), U16(i2), U16(i3), U16(i2), U16(i1)];
      i := i + 1;
    }
    var cap := WriteCapFan(vertexOffset + 2 * SegmentCount, false);
    indices := indices + cap;
  }

  // ---------------------------------------------------------------------
  // Filled cylinder: a quad per segment, then a fan for each end cap

  /** Side quad `i` as the triangles (i0, i2, i1) and (i1, i2, i3). */
  function CylinderSide(vertexOffset: nat, i: nat): seq<Index>
  {
    var i0 := vertexOffset + 2 * i;
    var i2 := vertexOffset + 2 * NextSegment(i);
    [U16(i0), U16(i2), U16(i0 + 1), U16(i0 + 1), U16(i2), U16(i2 + 1)]
  }

  function CylinderSides(vertexOffset: nat, n: nat): (r: seq<Index>)
    ensures |r| == 6 * n
  {
    if n == 0 then [] else CylinderSides(vertexOffset, n - 1) + CylinderSide(vertexOffset, n - 1)
  }

  lemma {:induction false} CylinderSidesWithin(vertexOffset: nat, n: nat)
    requires n <= SegmentCount && vertexOffset + 2 * SegmentCount <= 0x1_0000
    ensures Within(CylinderSides(vertexOffset, n), vertexOffset, vertexOffset + 2 * SegmentCount)
  {
    if n > 0 {
      CylinderSidesWithin(vertexOffset, n - 1);
      CylinderSideStep(vertexOffset, n);
    }
  }

  lemma {:induction false} CylinderSideStep(vertexOffset: nat, n: nat)
    requires 0 < n <= SegmentCount && vertexOffset + 2 * SegmentCount <= 0x1_0000
    requires Within(CylinderSides(vertexOffset, n - 1), vertexOffset, vertexOffset + 2 * SegmentCount)
    ensures Within(CylinderSides(vertexOffset, n), vertexOffset, vertexOffset + 2 * SegmentCount)
  {
    WithinAll(CylinderSide(vertexOffset, n - 1), vertexOffset, vertexOffset + 2 * SegmentCount);
    WithinAppend(CylinderSides(vertexOffset, n - 1), CylinderSide(vertexOffset, n - 1), vertexOffset, vertexOffset + 2 * SegmentCount);
  }

  /** The first cap starts right after the side vertices, each cap has a rim and a centre. */
  function CylinderCapBase(vertexOffset: nat, k: nat): nat
  {
    vertexOffset + 2 * SegmentCount + (SegmentCount + 1) * k
  }

  /** The caps before cap `k`; the lower cap (k = 0) is wound the other way round. */
  function CylinderCaps(vertexOffset: nat, k: nat): (r: seq<Index>)
    ensures |r| == 54 * k
  {
    if k == 0 then []
    else CylinderCaps(vertexOffset, k - 1) + CapFan(CylinderCapBase(vertexOffset, k - 1), SegmentCount, k - 1 == 0)
  }

  lemma {:induction false} CylinderCapsWithin(vertexOffset: nat, k: nat)
    requires CylinderCapBase(vertexOffset, k) <= 0x1_0000
    ensures Within(CylinderCaps(vertexOffset, k), vertexOffset, CylinderCapBase(vertexOffset, k))
  {
    if k > 0 {
      var base := CylinderCapBase(vertexOffset, k - 1);
      var hi := CylinderCapBase(vertexOffset, k);
      CylinderCapsWithin(vertexOffset, k - 1);
      CapFanWithin(base, SegmentCount, k - 1 == 0);
      WithinWiden(CylinderCaps(vertexOffset, k - 1), vertexOffset, base, vertexOffset, hi);
      WithinWiden(CapFan(base, SegmentCount, k - 1 == 0), base, base + SegmentCount + 1, vertexOffset, hi);
      WithinAppend(CylinderCaps(vertexOffset, k - 1), CapFan(base, SegmentCount, k - 1 == 0), vertexOffset, hi);
    }
  }

  function FilledCylinderIndices(vertexOffset: nat): (r: seq<Index>)
    ensures |r| == FilledCylinderIndexCount
  {
    CylinderSides(vertexOffset, SegmentCount) + CylinderCaps(vertexOffset, 2)
  }

  lemma {:induction false} FilledCylinderWithin(vertexOffset: nat)
    requires vertexOffset + FilledCylinderVertexCount <= 0x1_0000
    ensures Within(FilledCylinderIndices(vertexOffset), vertexOffset, vertexOffset + FilledCylinderVertexCount)
  {
    var hi := vertexOffset + FilledCylinderVertexCount;
    CylinderSidesWithin(vertexOffset, SegmentCount);
    CylinderCapsWithin(vertexOffset, 2);
    WithinWiden(CylinderSides(vertexOffset, SegmentCount), vertexOffset, vertexOffset + 2 * SegmentCount, vertexOffset, hi);
    WithinAppend(CylinderSides(vertexOffset, SegmentCount), CylinderCaps(vertexOffset, 2), vertexOffset, hi);
  }

  /** The indices `imdd_write_filled_cylinder` stores, in order: the side quads, then both caps. */
  method WriteFilledCylinder(vertexOffset: nat) returns (indices: seq<Index>)
    ensures indices == FilledCylinderIndices(vertexOffset)
  {
    indices := [];
    var i := 0;
    while i < SegmentCount
      invariant i <= SegmentCount
      invariant indices == CylinderSides(vertexOffset, i)
    {
      var i0 := vertexOffset + 2 * i;
      var i1 := i0 + 1;
      var i2 := vertexOffset + 2 * NextSegment(i);
      var i3 := i2 + 1;
      indices := indices + [U16(i0), U16(i2), U16(i1), U16(i1), U16(i2), U16(i3)];
      i := i + 1;
    }
    ghost var sides := indices;
    var capBase := vertexOffset + 2 * SegmentCount;
    var k := 0;
    while k < 2
      invariant k <= 2 && capBase == CylinderCapBase(vertexOffset, k)
      invariant indices == sides + CylinderCaps(vertexOffset, k)
    {
      var cap := WriteCapFan(capBase, k == 0);
      assert sides + CylinderCaps(vertexOffset, k) + cap == sides + (CylinderCaps(vertexOffset, k) + cap);
      indices := indices + cap;
      capBase := capBase + SegmentCount + 1;
      k := k + 1;
    }
  }

  // ---------------------------------------------------------------------
  // Wire box: the twelve edges of the cube from a fixed table

  /** One of the eight corners of the box. */
  type Corner = x: nat | x < 8

  /** Corner `i` sits at (±1, ±1, ±1) by bits 0, 1 and 2 of `i`. */
  const WireBoxEdges: seq<Corner> := [
    0, 1, 2, 3, 4, 5, 6, 7,
    0, 2, 1, 3, 4, 6, 5, 7,
    0, 4, 1, 5, 2, 6, 3, 7]

  function WireBoxLines(vertexOffset: nat): (r: seq<Index>)
    ensures |r| == WireBoxIndexCount
  {
    seq(WireBoxIndexCount, i requires 0 <= i < WireBoxIndexCount => U16(vertexOffset + WireBoxEdges[i]))
  }

  lemma {:induction false} WireBoxLinesWithin(vertexOffset: nat)
    requires vertexOffset + WireBoxVertexCount <= 0x1_0000
    ensures Within(WireBoxLines(vertexOffset), vertexOffset, vertexOffset + WireBoxVertexCount)
  {
    WithinAll(WireBoxLines(vertexOffset), vertexOffset, vertexOffset + WireBoxVertexCount);
  }

  /** The indices `imdd_write_wire_box` stores: the vertex offset plus each table entry. */
  method WriteWireBox(vertexOffset: nat) returns (indices: seq<Index>)
    ensures indices == WireBoxLines(vertexOffset)
  {
    indices := [];
    var i := 0;
    while i < WireBoxIndexCount
      invariant i <= WireBoxIndexCount
      invariant indices == WireBoxLines(vertexOffset)[..i]
    {
      indices := indices + [U16(vertexOffset + WireBoxEdges[i])];
      assert WireBoxLines(vertexOffset)[..i + 1] == WireBoxLines(vertexOffset)[..i] + [WireBoxLines(vertexOffset)[i]];
      i := i + 1;
    }
    assert WireBoxLines(vertexOffset)[..i] == WireBoxLines(vertexOffset);
  }

  // ---------------------------------------------------------------------
  // Wire sphere: the grid lines of a 7 x 7 vertex grid per cube face

  /** The line from grid vertex `i0` to its right neighbour. */
  function RightLine(i0: nat): seq<Index>
  {
    [U16(i0), U16(i0 + 1)]
  }

  /** The line from grid vertex `i0` to the vertex below it. */
  function DownLine(i0: nat): seq<Index>
  {
    [U16(i0), U16(i0 + (1 + SphereSub))]
  }

  /** Grid vertex `i0` at (x, y) joins its right neighbour and the one below, where they exist. */
  function WireSphereCell(i0: nat, x: nat, y: nat): (r: seq<Index>)
    ensures |r| == (if x < SphereSub then 2 else 0) + (if y < SphereSub then 2 else 0)
  {
    (if x < SphereSub then RightLine(i0) else []) + (if y < SphereSub then DownLine(i0) else [])
  }

  /** The first `x` cells of row `y`, which starts at `r0`. */
  function WireSphereRow(r0: nat, y: nat, x: nat): (r: seq<Index>)
    ensures |r| == (if y < SphereSub then 2 * x else 0) + 2 * (if x <= SphereSub then x else SphereSub)
  {
    if x == 0 then [] else WireSphereRow(r0, y, x - 1) + WireSphereCell(r0 + (x - 1), x - 1, y)
  }

  /** The lines of one grid vertex reach at most the vertex below it. */
  lemma {:induction false} WireSphereCellWithin(r0: nat, x: nat, y: nat)
    requires x <= SphereSub && y <= SphereSub && r0 + (if y < SphereSub then 14 else 7) <= 0x1_0000
    ensures Within(WireSphereCell(r0 + x, x, y), r0, r0 + (if y < SphereSub then 14 else 7))
  {
    WithinAll(WireSphereCell(r0 + x, x, y), r0, r0 + (if y < SphereSub then 14 else 7));
  }

  lemma {:induction false} WireSphereRowWithin(r0: nat, y: nat, x: nat)
    requires y <= SphereSub && x <= 1 + SphereSub && r0 + (if y < SphereSub then 14 else 7) <= 0x1_0000
    ensures Within(WireSphereRow(r0, y, x), r0, r0 + (if y < SphereSub then 14 else 7))
  {
    if x > 0 {
      WireSphereRowWithin(r0, y, x - 1);
      WireSphereCellWithin(r0, x - 1, y);
      WithinAppend(WireSphereRow(r0, y, x - 1), WireSphereCell(r0 + (x - 1), x - 1, y),
        r0, r0 + (if y < SphereSub then 14 else 7));
    }
  }

  /** The first `y` rows of the face starting at `f0`. */
  function WireSphereRows(f0: nat, y: nat): (r: seq<Index>)
    ensures |r| == 12 * y + 14 * (if y <= SphereSub then y else SphereSub)
  {
    if y == 0 then [] else WireSphereRows(f0, y - 1) + WireSphereRow(f0 + 7 * (y - 1), y - 1, 1 + SphereSub)
  }

  lemma {:induction false} WireSphereRowsWithin(f0: nat, y: nat)
    requires y <= 1 + SphereSub && f0 + 49 <= 0x1_0000
    ensures Within(WireSphereRows(f0, y), f0, f0 + 49)
  {
    if y > 0 {
      WireSphereRowsWithin(f0, y - 1);
      WireSphereRowsStep(f0, y);
    }
  }

  lemma {:induction false} WireSphereRowsStep(f0: nat, y: nat)
    requires 0 < y <= 1 + SphereSub && f0 + 49 <= 0x1_0000
    requires Within(WireSphereRows(f0, y - 1), f0, f0 + 49)
    ensures Within(WireSphereRows(f0, y), f0, f0 + 49)
  {
    var r0 := f0 + 7 * (y - 1);
    var row := WireSphereRow(r0, y - 1, 1 + SphereSub);
    WireSphereRowWithin(r0, y - 1, 1 + SphereSub);
    WithinWiden(row, r0, r0 + (if y - 1 < SphereSub then 14 else 7), f0, f0 + 49);
    WithinAppend(WireSphereRows(f0, y - 1), row, f0, f0 + 49);
  }

  /** The first `n` faces. */
  function WireSphereFaces(vertexOffset: nat, n: nat): (r: seq<Index>)
    ensures |r| == 168 * n
  {
    if n == 0 then [] else WireSphereFaces(vertexOffset, n - 1) + WireSphereRows(vertexOffset + 49 * (n - 1), 1 + SphereSub)
  }

  /** Face `n - 1` appends indices of its own 49 vertices after the faces before it. */
  lemma {:induction false} WireSphereFaceStep(vertexOffset: nat, n: nat)
    requires n > 0 && vertexOffset + 49 * n <= 0x1_0000
    requires Within(WireSphereFaces(vertexOffset, n - 1), vertexOffset, vertexOffset + 49 * (n - 1))
    ensures Within(WireSphereFaces(vertexOffset, n), vertexOffset, vertexOffset + 49 * n)
  {
    var f0 := vertexOffset + 49 * (n - 1);
    WireSphereRowsWithin(f0, 1 + SphereSub);
    assert f0 + 49 == vertexOffset + 49 * n;
    JoinWithin(WireSphereFaces(vertexOffset, n - 1), WireSphereRows(f0, 1 + SphereSub), vertexOffset, f0, f0 + 49);
  }

  lemma {:induction false} WireSphereFacesWithin(vertexOffset: nat, n: nat)
    requires vertexOffset + 49 * n <= 0x1_0000
    ensures Within(WireSphereFaces(vertexOffset, n), vertexOffset, vertexOffset + 49 * n)
  {
    if n > 0 {
      WireSphereFacesWithin(vertexOffset, n - 1);
      WireSphereFaceStep(vertexOffset, n);
    }
  }

  /** Row `y` of one face, whose first vertex is `r0`: the loop over x. */
  method WriteWireSphereRow(r0: nat, y: nat) returns (indices: seq<Index>)
    ensures indices == WireSphereRow(r0, y, 1 + SphereSub)
  {
    indices := [];
    var x := 0;
    while x <= SphereSub
      invariant x <= 1 + SphereSub
      invariant indices == WireSphereRow(r0, y, x)
    {
      var i0 := r0 + x;
      var cell: seq<Index> := [];
      if x < SphereSub {
        var i1 := i0 + 1;
        cell := cell + [U16(i0), U16(i1)];
      }
      if y < SphereSub {
        var i1 := i0 + (1 + SphereSub);
        cell := cell + [U16(i0), U16(i1)];
      }
      assert cell == WireSphereCell(i0, x, y);
      indices := indices + cell;
      x := x + 1;
    }
  }

  /** The rows of one face: the loop over y. */
  method WriteWireSphereFace(faceVertexOffset: nat) returns (indices: seq<Index>)
    ensures indices == WireSphereRows(faceVertexOffset, 1 + SphereSub)
  {
    indices := [];
    var y := 0;
    while y <= SphereSub
      invariant y <= 1 + SphereSub
      invariant indices == WireSphereRows(faceVertexOffset, y)
    {
      var r0 := faceVertexOffset + y * (1 + SphereSub);
      assert r0 == faceVertexOffset + 7 * y;
      var row := WriteWireSphereRow(r0, y);
      indices := indices + row;
      y := y + 1;
    }
  }

  /** The indices `imdd_write_wire_sphere` stores, in order: the loop over faces. */
  method WriteWireSphere(vertexOffset: nat) returns (indices: seq<Index>)
    ensures indices == WireSphereFaces(vertexOffset, FaceCount)
  {
    indices := [];
    var face := 0;
    while face < FaceCount
      invariant face <= FaceCount
      invariant indices == WireSphereFaces(vertexOffset, face)
    {
      var faceVertexOffset := vertexOffset + face * ((1 + SphereSub) * (1 + SphereSub));
      assert faceVertexOffset == vertexOffset + 49 * face;
      var rows := WriteWireSphereFace(faceVertexOffset);
      indices := indices + rows;
      face := face + 1;
    }
  }

  // ---------------------------------------------------------------------
  // Wire cone: a rim line and a line to the apex per segment

  /** The rim line from segment `i` to the next and the line from `i` to the apex. */
  function WireConeSegment(vertexOffset: nat, i: nat): seq<Index>
  {
    var i0 := vertexOffset + i;
    var i1 := vertexOffset + NextSegment(i);
    var i2 := vertexOffset + SegmentCount;
    [U16(i0), U16(i1), U16(i0), U16(i2)]
  }

  function WireConeLines(vertexOffset: nat, n: nat): (r: seq<Index>)
    ensures |r| == 4 * n
  {
    if n == 0 then [] else WireConeLines(vertexOffset, n - 1) + WireConeSegment(vertexOffset, n - 1)
  }

  lemma {:induction false} WireConeLinesWithin(vertexOffset: nat, n: nat)
    requires n <= SegmentCount && vertexOffset + SegmentCount < 0x1_0000
    ensures Within(WireConeLines(vertexOffset, n), vertexOffset, vertexOffset + SegmentCount + 1)
  {
    if n > 0 {
      WireConeLinesWithin(vertexOffset, n - 1);
      WithinAll(WireConeSegment(vertexOffset, n - 1), vertexOffset, vertexOffset + SegmentCount + 1);
      WithinAppend(WireConeLines(vertexOffset, n - 1), WireConeSegment(vertexOffset, n - 1), vertexOffset, vertexOffset + SegmentCount + 1);
    }
  }

  /** The indices `imdd_write_wire_cone` stores, in order. */
  method WriteWireCone(vertexOffset: nat) returns (indices: seq<Index>)
    ensures indices == WireConeLines(vertexOffset, SegmentCount)
  {
    indices := [];
    var i := 0;
    while i < SegmentCount
      invariant i <= SegmentCount
      invariant indices == WireConeLines(vertexOffset, i)
    {
      var i0 := vertexOffset + i;
      var i1 := vertexOffset + NextSegment(i);
      var i2 := vertexOffset + SegmentCount;
      indices := indices + [U16(i0), U16(i1), U16(i0), U16(i2)];
      i := i + 1;
    }
  }

  // ---------------------------------------------------------------------
  // Wire cylinder: per segment the two rim lines and the vertical line

  /** The lower rim line, the vertical line and the upper rim line of segment `i`. */
  function WireCylinderSegment(vertexOffset: nat, i: nat): seq<Index>
  {
    var i0 := vertexOffset + 2 * i;
    var i2 := vertexOffset + 2 * NextSegment(i);
    [U16(i0), U16(i2), U16(i0), U16(i0 + 1), U16(i0 + 1), U16(i2 + 1)]
  }

  function WireCylinderLines(vertexOffset: nat, n: nat): (r: seq<Index>)
    ensures |r| == 6 * n
  {
    if n == 0 then [] else WireCylinderLines(vertexOffset, n - 1) + WireCylinderSegment(vertexOffset, n - 1)
  }

  lemma {:induction false} WireCylinderLinesWithin(vertexOffset: nat, n: nat)
    requires n <= SegmentCount && vertexOffset + 2 * SegmentCount <= 0x1_0000
    ensures Within(WireCylinderLines(vertexOffset, n), vertexOffset, vertexOffset + 2 * SegmentCount)
  {
    if n > 0 {
      WireCylinderLinesWithin(vertexOffset, n - 1);
      WireCylinderSegmentStep(vertexOffset, n);
    }
  }

  lemma {:induction false} WireCylinderSegmentStep(vertexOffset: nat, n: nat)
    requires 0 < n <= SegmentCount && vertexOffset + 2 * SegmentCount <= 0x1_0000
    requires Within(WireCylinderLines(vertexOffset, n - 1), vertexOffset, vertexOffset + 2 * SegmentCount)
    ensures Within(WireCylinderLines(vertexOffset, n), vertexOffset, vertexOffset + 2 * SegmentCount)
  {
    WithinAll(WireCylinderSegment(vertexOffset, n - 1), vertexOffset, vertexOffset + 2 * SegmentCount);
    WithinAppend(WireCylinderLines(vertexOffset, n - 1), WireCylinderSegment(vertexOffset, n - 1), vertexOffset, vertexOffset + 2 * SegmentCount);
  }

  /** The indices `imdd_write_wire_cylinder` stores, in order. */
  method WriteWireCylinder(vertexOffset: nat) returns (indices: seq<Index>)
    ensures indices == WireCylinderLines(vertexOffset, SegmentCount)
  {
    indices := [];
    var i := 0;
    while i < SegmentCount
      invariant i <= SegmentCount
      invariant indices == WireCylinderLines(vertexOffset, i)
    {
      var i0 := vertexOffset + 2 * i;
      var i1 := i0 + 1;
      var i2 := vertexOffset + 2 * NextSegment(i);
      var i3 := i2 + 1;
      indices := indices + [U16(i0), U16(i2), U16(i0), U16(i1), U16(i1), U16(i3)];
      i := i + 1;
    }
  }

  // ---------------------------------------------------------------------
  // The mesh description table and its writers

  /** What the writer in row `style`, column `mesh` of the description table stores for `vertexOffset`. */
  function MeshIndices(style: Bit, mesh: nat, vertexOffset: nat): (r: seq<Index>)
    requires mesh < MeshCount
    ensures |r| == IndexCount(style, mesh)
  {
    if style == StyleFilled then
      if mesh == MeshBox then FilledBoxFaces(vertexOffset, FaceCount)
      else if mesh == MeshSphere then FilledSphereFaces(vertexOffset, FaceCount)
      else if mesh == MeshCone then FilledConeIndices(vertexOffset)
      else FilledCylinderIndices(vertexOffset)
    else
      if mesh == MeshBox then WireBoxLines(vertexOffset)
      else if mesh == MeshSphere then WireSphereFaces(vertexOffset, FaceCount)
      else if mesh == MeshCone then WireConeLines(vertexOffset, SegmentCount)
      else WireCylinderLines(vertexOffset, SegmentCount)
  }

  /**
   * Each writer stores exactly the table's index count, whole triangles
   * for a filled mesh and whole lines for a wire one, and when the mesh's
   * vertices sit below 2^16 every index names one of them.
   */
  lemma {:induction false} MeshIndicesMatchTable(style: Bit, mesh: nat, vertexOffset: nat)
    requires mesh < MeshCount
    requires vertexOffset + VertexCount(style, mesh) <= 0x1_0000
    ensures |MeshIndices(style, mesh, vertexOffset)| == IndexCount(style, mesh)
    ensures IndexCount(style, mesh) % (if style == StyleFilled then 3 else 2) == 0
    ensures Within(MeshIndices(style, mesh, vertexOffset), vertexOffset, vertexOffset + VertexCount(style, mesh))
  {
    if style == StyleFilled {
      if mesh == MeshBox {
        FilledBoxFacesWithin(vertexOffset, FaceCount);
      } else if mesh == MeshSphere {
        FilledSphereFacesWithin(vertexOffset, FaceCount);
      } else if mesh == MeshCone {
        FilledConeWithin(vertexOffset);
      } else {
        FilledCylinderWithin(vertexOffset);
      }
    } else {
      if mesh == MeshBox {
        WireBoxLinesWithin(vertexOffset);
      } else if mesh == MeshSphere {
        WireSphereFacesWithin(vertexOffset, FaceCount);
      } else if mesh == MeshCone {
        WireConeLinesWithin(vertexOffset, SegmentCount);
      } else {
        WireCylinderLinesWithin(vertexOffset, SegmentCount);
      }
    }
  }

  /**
   * Calls the writer in row `style`, column `mesh` of the description table
   * and stores what it writes into the index buffer from `at` on.
   */
  method WriteMesh(style: Bit, mesh: nat, vertexOffset: nat, indices: array<Index>, at: nat)
    requires mesh < MeshCount
    requires at + IndexCount(style, mesh) <= indices.Length
    modifies indices
    ensures indices[..] == Overwrite(old(indices[..]), at, MeshIndices(style, mesh, vertexOffset))
  {
    var run: seq<Index>;
    if style == StyleFilled {
      if mesh == MeshBox {
        run := WriteFilledBox(vertexOffset);
      } else if mesh == MeshSphere {
        run := WriteFilledSphere(vertexOffset);
      } else if mesh == MeshCone {
        run := WriteFilledCone(vertexOffset);
      } else {
        run := WriteFilledCylinder(vertexOffset);
      }
    } else {
      if mesh == MeshBox {
        run := WriteWireBox(vertexOffset);
      } else if mesh == MeshSphere {
        run := WriteWireSphere(vertexOffset);
      } else if mesh == MeshCone {
        run := WriteWireCone(vertexOffset);
      } else {
        run := WriteWireCylinder(vertexOffset);
      }
    }
    WriteAt(indices, at, run);
  }

  // ---------------------------------------------------------------------
  // Mesh layout

  datatype MeshOffsets = MeshOffsets(vertexOffset: nat, indexOffset: nat)

  datatype MeshLayout = MeshLayout(style: Bit, offsets: seq<MeshOffsets>, vertexCount: nat, indexCount: nat)

  /** The vertices of the meshes before `mesh`. */
  function VertexSum(style: Bit, mesh: nat): nat
    requires mesh <= MeshCount
  {
    if mesh == 0 then 0 else VertexSum(style, mesh - 1) + VertexCount(style, mesh - 1)
  }

  /** The indices of the meshes before `mesh`. */
  function IndexSum(style: Bit, mesh: nat): nat
    requires mesh <= MeshCount
  {
    if mesh == 0 then 0 else IndexSum(style, mesh - 1) + IndexCount(style, mesh - 1)
  }

  /** The layout holds the running totals of its style's counts. */
  ghost predicate Laid(layout: MeshLayout)
  {
    |layout.offsets| == MeshCount &&
    (forall m :: 0 <= m < MeshCount ==>
      layout.offsets[m] == MeshOffsets(VertexSum(layout.style, m), IndexSum(layout.style, m))) &&
    layout.vertexCount == VertexSum(layout.style, MeshCount) &&
    layout.indexCount == IndexSum(layout.style, MeshCount)
  }

  /**
   * Gives each mesh the running totals of the vertex and index counts of
   * the meshes before it, and the layout the full totals.
   */
  method MeshLayoutInit(style: Bit) returns (layout: MeshLayout)
    ensures layout.style == style && Laid(layout)
  {
    var offsets: seq<MeshOffsets> := [];
    var vertexCount := 0;
    var indexCount := 0;
    var i := 0;
    while i < MeshCount
      invariant i <= MeshCount && |offsets| == i
      invariant forall m :: 0 <= m < i ==> offsets[m] == MeshOffsets(VertexSum(style, m), IndexSum(style, m))
      invariant vertexCount == VertexSum(style, i) && indexCount == IndexSum(style, i)
    {
      offsets := offsets + [MeshOffsets(vertexCount, indexCount)];
      vertexCount := vertexCount + VertexCount(style, i);
      indexCount := indexCount + IndexCount(style, i);
      i := i + 1;
    }
    layout := MeshLayout(style, offsets, vertexCount, indexCount);
  }

  /** The totals are small enough that no index of either style is truncated by the 16-bit cast. */
  lemma {:induction false} LayoutTotals(style: Bit)
    ensures VertexSum(style, MeshCount) == (if style == StyleFilled then 447 else 357)
    ensures IndexSum(style, MeshCount) == (if style == StyleFilled then 1710 else 1212)
  {
    assert VertexSum(style, 2) == VertexCount(style, 0) + VertexCount(style, 1);
    assert IndexSum(style, 2) == IndexCount(style, 0) + IndexCount(style, 1);
  }

  lemma {:induction false} VertexSumMonotone(style: Bit, m: nat, n: nat)
    requires m <= n <= MeshCount
    ensures VertexSum(style, m) <= VertexSum(style, n)
    decreases n - m
  {
    if m < n {
      VertexSumMonotone(style, m, n - 1);
    }
  }

  lemma {:induction false} IndexSumMonotone(style: Bit, m: nat, n: nat)
    requires m <= n <= MeshCount
    ensures IndexSum(style, m) <= IndexSum(style, n)
    decreases n - m
  {
    if m < n {
      IndexSumMonotone(style, m, n - 1);
    }
  }

  /** Every running vertex total fits the 16-bit index range. */
  lemma {:induction false} VertexSumFits(style: Bit, mesh: nat)
    requires mesh <= MeshCount
    ensures VertexSum(style, mesh) <= 447
  {
    LayoutTotals(style);
    VertexSumMonotone(style, mesh, MeshCount);
  }

  /** The index buffer after writing the meshes before `mesh` at their offsets. */
  function LayoutIndices(style: Bit, mesh: nat): (r: seq<Index>)
    requires mesh <= MeshCount
    ensures |r| == IndexSum(style, mesh)
  {
    if mesh == 0 then []
    else LayoutIndices(style, mesh - 1) + MeshIndices(style, mesh - 1, VertexSum(style, mesh - 1))
  }

  /** Writing one more mesh appends indices of that mesh's own vertex range. */
  lemma {:induction false} MeshPart(style: Bit, mesh: nat) returns (part: seq<Index>)
    requires mesh < MeshCount
    ensures LayoutIndices(style, mesh + 1) == LayoutIndices(style, mesh) + part
    ensures Within(part, VertexSum(style, mesh), VertexSum(style, mesh + 1))
  {
    var lo := VertexSum(style, mesh);
    assert VertexSum(style, mesh + 1) == lo + VertexCount(style, mesh);
    VertexSumFits(style, mesh + 1);
    part := MeshIndices(style, mesh, lo);
    MeshIndicesMatchTable(style, mesh, lo);
  }

  /** Writing more meshes only appends to what is already written. */
  lemma {:induction false} LayoutIndicesPrefix(style: Bit, m: nat, n: nat)
    requires m <= n <= MeshCount
    ensures LayoutIndices(style, m) <= LayoutIndices(style, n)
    decreases n - m
  {
    if m < n {
      LayoutIndicesPrefix(style, m, n - 1);
    }
  }

  /** Entry `j` of the written index buffer is the entry of the mesh whose index range holds `j`. */
  lemma {:induction false} LayoutIndexOfMesh(style: Bit, mesh: nat, j: nat)
    requires mesh < MeshCount
    requires IndexSum(style, mesh) <= j < IndexSum(style, mesh + 1)
    ensures j < |LayoutIndices(style, MeshCount)|
    ensures LayoutIndices(style, MeshCount)[j] == MeshIndices(style, mesh, VertexSum(style, mesh))[j - IndexSum(style, mesh)]
  {
    LayoutIndicesPrefix(style, mesh + 1, MeshCount);
    var part := MeshIndices(style, mesh, VertexSum(style, mesh));
    assert LayoutIndices(style, mesh + 1) == LayoutIndices(style, mesh) + part;
    assert LayoutIndices(style, MeshCount)[j] == LayoutIndices(style, mesh + 1)[j];
  }

  /** An entry inside a part appended after `pre` lies in the part's bounds. */
  lemma {:induction false} PartEntryWithin(whole: seq<Index>, upto: seq<Index>, pre: seq<Index>, part: seq<Index>, j: nat, lo: nat, hi: nat)
    requires upto <= whole && upto == pre + part && |pre| <= j < |pre| + |part|
    requires Within(part, lo, hi)
    ensures j < |whole| && lo <= whole[j] < hi
  {
    assert whole[j] == upto[j] == part[j - |pre|];
    WithinAt(part, lo, hi, j - |pre|);
  }

  /**
   * In the written index buffer, the index range of each mesh holds only
   * indices of that mesh's own vertex range.
   */
  lemma {:induction false} LayoutIndicesStayInMesh(style: Bit, mesh: nat, j: nat)
    requires mesh < MeshCount
    requires IndexSum(style, mesh) <= j < IndexSum(style, mesh + 1)
    ensures j < |LayoutIndices(style, MeshCount)|
    ensures VertexSum(style, mesh) <= LayoutIndices(style, MeshCount)[j] < VertexSum(style, mesh + 1)
  {
    var part := MeshPart(style, mesh);
    LayoutIndicesPrefix(style, mesh + 1, MeshCount);
    PartEntryWithin(LayoutIndices(style, MeshCount), LayoutIndices(style, mesh + 1), LayoutIndices(style, mesh), part,
      j, VertexSum(style, mesh), VertexSum(style, mesh + 1));
  }

  /** Writing mesh `i` at its offsets extends what the meshes before it wrote. */
  lemma {:induction false} LayoutStep(style: Bit, i: nat, before: seq<Index>)
    requires i < MeshCount && IndexSum(style, MeshCount) <= |before|
    ensures IndexSum(style, i) + IndexCount(style, i) <= |before|
    ensures Overwrite(Overwrite(before, 0, LayoutIndices(style, i)), IndexSum(style, i), MeshIndices(style, i, VertexSum(style, i)))
      == Overwrite(before, 0, LayoutIndices(style, i + 1))
  {
    IndexSumMonotone(style, i + 1, MeshCount);
    OverwriteAppend(before, 0, LayoutIndices(style, i), MeshIndices(style, i, VertexSum(style, i)));
  }

  /**
   * Runs every writer of the layout's style at its mesh's offsets, filling
   * the index buffer's first `indexCount` entries.
   */
  method MeshLayoutWrite(layout: MeshLayout, indices: array<Index>)
    requires Laid(layout) && layout.indexCount <= indices.Length
    modifies indices
    ensures indices[..] == Overwrite(old(indices[..]), 0, LayoutIndices(layout.style, MeshCount))
  {
    ghost var before := indices[..];
    var i := 0;
    while i < MeshCount
      invariant i <= MeshCount
      invariant indices[..] == Overwrite(before, 0, LayoutIndices(layout.style, i))
    {
      var offsets := layout.offsets[i];
      LayoutStep(layout.style, i, before);
      WriteMesh(layout.style, i, offsets.vertexOffset, indices, offsets.indexOffset);
      i := i + 1;
    }
  }
}
