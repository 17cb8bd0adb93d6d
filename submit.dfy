/**
 * The typed submission helpers of `imdd.h`: each reserves a fixed number of
 * quads for its kind and, only when a run came back, fills it in.
 */
module Submit {
  import opened Wrappers
  import opened Lanes
  import opened Header
  import opened Buffers
  import opened Store

  /** One shape as a helper submits it: the reserve arguments and the quads it writes. */
  datatype Submission = Submission(shape: ShapeKind, style: Bit, zmode: Bit, color: Color, quads: seq<V4>)

  /**
   * The store after one submission: reserve `|quads|` quads, then copy the
   * quads into the run if one was handed out.
   */
  function SubmitSpec(v: StoreView, s: Submission): (r: StoreView)
    requires WellFormed(v)
    ensures WellFormed(r)
  {
    var res := ReserveSpec(v, s.shape, s.style, s.zmode, s.color, |s.quads|);
    match res.data
    case None => res.view
    case Some(offset) => res.view.(pool := Overwrite(res.view.pool, offset, s.quads))
  }

  /**
   * A submission changes the store as the reservation does, and the pool
   * only inside the run it was given: there the quads read back as
   * submitted; without a run the pool is untouched.
   */
  lemma {:induction false} SubmitWritesOnlyItsRun(v: StoreView, s: Submission)
    requires Inv(v)
    ensures var res := ReserveSpec(v, s.shape, s.style, s.zmode, s.color, |s.quads|);
      var r := SubmitSpec(v, s);
      Inv(r) && r.(pool := v.pool) == res.view &&
      (res.data.None? ==> r.pool == v.pool) &&
      (res.data.Some? ==>
        r.pool[res.data.value..res.data.value + |s.quads|] == s.quads &&
        forall i :: 0 <= i < |v.pool| && !(res.data.value <= i < res.data.value + |s.quads|) ==> r.pool[i] == v.pool[i])
  {
    ReservePreservesInv(v, s.shape, s.style, s.zmode, s.color, |s.quads|);
  }

  /** The store after the submissions `subs`, in order. */
  function SubmitAll(v: StoreView, subs: seq<Submission>): (r: StoreView)
    requires WellFormed(v)
    ensures WellFormed(r)
  {
    if |subs| == 0 then v else SubmitSpec(SubmitAll(v, subs[..|subs| - 1]), subs[|subs| - 1])
  }

  /** Reserve the run for `s` and fill it when one came back. */
  method ReserveAndFill(store: ShapeStore, s: Submission)
    requires store.Valid()
    modifies store, store.headerStore, store.bucketSizes, store.dataQwStore
    ensures store.Valid()
    ensures store.View() == SubmitSpec(old(store.View()), s)
  {
    var data := store.Reserve(s.shape, s.style, s.zmode, s.color, |s.quads|);
    if data.Some? {
      store.WriteQuads(data.value, s.quads);
    }
  }

  /** `imdd_line`: two quads, always drawn as wire. */
  method Line(store: ShapeStore, zmode: Bit, start: V4, end: V4, color: Color)
    requires store.Valid()
    modifies store, store.headerStore, store.bucketSizes, store.dataQwStore
    ensures store.Valid()
    ensures store.View() == SubmitSpec(old(store.View()), Submission(ShapeLine, StyleWire, zmode, color, [start, end]))
  {
    ReserveAndFill(store, Submission(ShapeLine, StyleWire, zmode, color, [start, end]));
  }

  /** `imdd_triangle`: three quads, the corners. */
  method Triangle(store: ShapeStore, style: Bit, zmode: Bit, a: V4, b: V4, c: V4, color: Color)
    requires store.Valid()
    modifies store, store.headerStore, store.bucketSizes, store.dataQwStore
    ensures store.Valid()
    ensures store.View() == SubmitSpec(old(store.View()), Submission(ShapeTriangle, style, zmode, color, [a, b, c]))
  {
    ReserveAndFill(store, Submission(ShapeTriangle, style, zmode, color, [a, b, c]));
  }

  /** `imdd_aabb`: two quads, the minimum and maximum corners. */
  method Aabb(store: ShapeStore, style: Bit, zmode: Bit, min: V4, max: V4, color: Color)
    requires store.Valid()
    modifies store, store.headerStore, store.bucketSizes, store.dataQwStore
    ensures store.Valid()
    ensures store.View() == SubmitSpec(old(store.View()), Submission(ShapeAabb, style, zmode, color, [min, max]))
  {
    ReserveAndFill(store, Submission(ShapeAabb, style, zmode, color, [min, max]));
  }

  /** `imdd_sphere`: one quad, the centre in xyz and the radius in w. */
  method Sphere(store: ShapeStore, style: Bit, zmode: Bit, centreRadius: V4, color: Color)
    requires store.Valid()
    modifies store, store.headerStore, store.bucketSizes, store.dataQwStore
    ensures store.Valid()
    ensures store.View() == SubmitSpec(old(store.View()), Submission(ShapeSphere, style, zmode, color, [centreRadius]))
  {
    ReserveAndFill(store, Submission(ShapeSphere, style, zmode, color, [centreRadius]));
  }

  /** The sign the helpers give the x axis: that of (x cross y) . z, in every lane. */
  function Parity(ops: FloatOps, xAxis: V4, yAxis: V4, zAxis: V4): V4 {
    Dot3(ops, Cross(ops, xAxis, yAxis), zAxis)
  }

  /**
   * The three quads `imdd_shape` stores: the rows of the 3x4 matrix whose
   * columns are the x axis (sign-corrected by the parity), the y and z axes
   * and the centre.
   */
  function ShapeQuads(ops: FloatOps, xAxis: V4, yAxis: V4, zAxis: V4, centre: V4): (q: seq<V4>)
    ensures |q| == 3
  {
    var t := TransposeInPlace(Rows(MulSign(xAxis, Parity(ops, xAxis, yAxis, zAxis)), yAxis, zAxis, centre));
    [t.r0, t.r1, t.r2]
  }

  /**
   * Lane `j` of stored row `i` is lane `i` of column `j`: the axes and the
   * centre become the columns of the stored transform.
   */
  lemma {:induction false} ShapeQuadsAreColumns(ops: FloatOps, xAxis: V4, yAxis: V4, zAxis: V4, centre: V4, i: nat)
    requires i < 3
    ensures var q := ShapeQuads(ops, xAxis, yAxis, zAxis, centre);
      var p := Parity(ops, xAxis, yAxis, zAxis);
      Lane(q[i], 0) == FlipSign(Lane(xAxis, i), Lane(p, i)) &&
      Lane(q[i], 1) == Lane(yAxis, i) &&
      Lane(q[i], 2) == Lane(zAxis, i) &&
      Lane(q[i], 3) == Lane(centre, i)
  {
    var p := Parity(ops, xAxis, yAxis, zAxis);
    var m := Rows(MulSign(xAxis, p), yAxis, zAxis, centre);
    var t := TransposeInPlace(m);
    assert Row(t, i) == ShapeQuads(ops, xAxis, yAxis, zAxis, centre)[i];
    assert Lane(Row(t, i), 0) == Lane(Row(m, 0), i);
    assert Lane(Row(t, i), 1) == Lane(Row(m, 1), i);
    assert Lane(Row(t, i), 2) == Lane(Row(m, 2), i);
    assert Lane(Row(t, i), 3) == Lane(Row(m, 3), i);
  }

  /** The kinds `imdd_shape` serves: everything drawn from an axis frame. */
  predicate IsFramedKind(shape: ShapeKind) {
    shape == ShapeObb || shape == ShapeEllipsoid || shape == ShapeCone || shape == ShapeCylinder
  }

  /** `imdd_shape`: three quads, the rows of the shape's transform. */
  method Shape(
    store: ShapeStore, ops: FloatOps, shape: ShapeKind, style: Bit, zmode: Bit,
    xAxis: V4, yAxis: V4, zAxis: V4, centre: V4, color: Color)
    requires store.Valid()
    modifies store, store.headerStore, store.bucketSizes, store.dataQwStore
    ensures store.Valid()
    ensures store.View() == SubmitSpec(old(store.View()),
      Submission(shape, style, zmode, color, ShapeQuads(ops, xAxis, yAxis, zAxis, centre)))
  {
    ReserveAndFill(store, Submission(shape, style, zmode, color, ShapeQuads(ops, xAxis, yAxis, zAxis, centre)));
  }

  /** `imdd_obb`. */
  method Obb(
    store: ShapeStore, ops: FloatOps, style: Bit, zmode: Bit,
    xAxis: V4, yAxis: V4, zAxis: V4, centre: V4, color: Color)
    requires store.Valid()
    modifies store, store.headerStore, store.bucketSizes, store.dataQwStore
    ensures store.Valid()
    ensures store.View() == SubmitSpec(old(store.View()),
      Submission(ShapeObb, style, zmode, color, ShapeQuads(ops, xAxis, yAxis, zAxis, centre)))
  {
    Shape(store, ops, ShapeObb, style, zmode, xAxis, yAxis, zAxis, centre, color);
  }

  /** `imdd_ellipsoid`. */
  method Ellipsoid(
    store: ShapeStore, ops: FloatOps, style: Bit, zmode: Bit,
    xAxis: V4, yAxis: V4, zAxis: V4, centre: V4, color: Color)
    requires store.Valid()
    modifies store, store.headerStore, store.bucketSizes, store.dataQwStore
    ensures store.Valid()
    ensures store.View() == SubmitSpec(old(store.View()),
      Submission(ShapeEllipsoid, style, zmode, color, ShapeQuads(ops, xAxis, yAxis, zAxis, centre)))
  {
    Shape(store, ops, ShapeEllipsoid, style, zmode, xAxis, yAxis, zAxis, centre, color);
  }

  /** `imdd_cone`: the frame's origin is the apex. */
  method Cone(
    store: ShapeStore, ops: FloatOps, style: Bit, zmode: Bit,
    xAxis: V4, yAxis: V4, zAxis: V4, apex: V4, color: Color)
    requires store.Valid()
    modifies store, store.headerStore, store.bucketSizes, store.dataQwStore
    ensures store.Valid()
    ensures store.View() == SubmitSpec(old(store.View()),
      Submission(ShapeCone, style, zmode, color, ShapeQuads(ops, xAxis, yAxis, zAxis, apex)))
  {
    Shape(store, ops, ShapeCone, style, zmode, xAxis, yAxis, zAxis, apex, color);
  }

  /** `imdd_cylinder`. */
  method Cylinder(
    store: ShapeStore, ops: FloatOps, style: Bit, zmode: Bit,
    xAxis: V4, yAxis: V4, zAxis: V4, apex: V4, color: Color)
    requires store.Valid()
    modifies store, store.headerStore, store.bucketSizes, store.dataQwStore
    ensures store.Valid()
    ensures store.View() == SubmitSpec(old(store.View()),
      Submission(ShapeCylinder, style, zmode, color, ShapeQuads(ops, xAxis, yAxis, zAxis, apex)))
  {
    Shape(store, ops, ShapeCylinder, style, zmode, xAxis, yAxis, zAxis, apex, color);
  }

  /** The quad count each helper reserves is the one the compiler reads back for the kind. */
  lemma {:induction false} HelpersReserveQuadCount(ops: FloatOps, shape: ShapeKind, x: V4, y: V4, z: V4, c: V4)
    ensures QuadCount(ShapeLine) == |[x, y]| && QuadCount(ShapeAabb) == |[x, y]|
    ensures QuadCount(ShapeTriangle) == |[x, y, z]| && QuadCount(ShapeSphere) == |[c]|
    ensures IsFramedKind(shape) ==> QuadCount(shape) == |ShapeQuads(ops, x, y, z, c)|
  {
  }

  /** The four corners of the far face of a frustum. */
  datatype Corners = Corners(c0: V4, c1: V4, c2: V4, c3: V4)

  function FrustumCorners(ops: FloatOps, xAxis: V4, yAxis: V4, zAxis: V4, apex: V4): Corners {
    var farCentre := Add(ops, apex, zAxis);
    var h := MulSign(xAxis, Parity(ops, xAxis, yAxis, zAxis));
    var edge0 := Sub(ops, farCentre, h);
    var edge1 := Add(ops, farCentre, h);
    Corners(Sub(ops, edge0, yAxis), Sub(ops, edge1, yAxis), Add(ops, edge0, yAxis), Add(ops, edge1, yAxis))
  }

  function FilledTriangle(zmode: Bit, a: V4, b: V4, c: V4, color: Color): Submission {
    Submission(ShapeTriangle, StyleFilled, zmode, color, [a, b, c])
  }

  function WireLine(zmode: Bit, a: V4, b: V4, color: Color): Submission {
    Submission(ShapeLine, StyleWire, zmode, color, [a, b])
  }

  /** The four side triangles of a filled frustum, each from the apex to one edge of the far face. */
  function FrustumSides(zmode: Bit, k: Corners, apex: V4, color: Color): seq<Submission> {
    [FilledTriangle(zmode, k.c0, apex, k.c1, color), FilledTriangle(zmode, k.c1, apex, k.c3, color),
     FilledTriangle(zmode, k.c3, apex, k.c2, color), FilledTriangle(zmode, k.c2, apex, k.c0, color)]
  }

  /** The two triangles of a filled frustum's far face. */
  function FrustumFarFace(zmode: Bit, k: Corners, color: Color): seq<Submission> {
    [FilledTriangle(zmode, k.c0, k.c1, k.c3, color), FilledTriangle(zmode, k.c3, k.c2, k.c0, color)]
  }

  /** The four lines from the apex to the corners of a wire frustum. */
  function FrustumApexLines(zmode: Bit, k: Corners, apex: V4, color: Color): seq<Submission> {
    [WireLine(zmode, apex, k.c0, color), WireLine(zmode, apex, k.c1, color),
     WireLine(zmode, apex, k.c2, color), WireLine(zmode, apex, k.c3, color)]
  }

  /** The four lines of a wire frustum's far rectangle. */
  function FrustumFarLines(zmode: Bit, k: Corners, color: Color): seq<Submission> {
    [WireLine(zmode, k.c0, k.c1, color), WireLine(zmode, k.c2, k.c3, color),
     WireLine(zmode, k.c0, k.c2, color), WireLine(zmode, k.c1, k.c3, color)]
  }

  /** Every submission in `subs` has the given kind, style, zmode, colour and quad count. */
  predicate AllOfKind(subs: seq<Submission>, shape: ShapeKind, style: Bit, zmode: Bit, color: Color, n: nat) {
    forall i :: 0 <= i < |subs| ==>
      subs[i].shape == shape && subs[i].style == style && subs[i].zmode == zmode &&
      subs[i].color == color && |subs[i].quads| == n
  }

  /** Two runs of submissions of one kind make one run of that kind. */
  lemma {:induction false} AllOfKindAppend(a: seq<Submission>, b: seq<Submission>, shape: ShapeKind, style: Bit, zmode: Bit, color: Color, n: nat)
    requires AllOfKind(a, shape, style, zmode, color, n) && AllOfKind(b, shape, style, zmode, color, n)
    ensures AllOfKind(a + b, shape, style, zmode, color, n)
  {
    forall i | 0 <= i < |a + b|
      ensures (a + b)[i].shape == shape && (a + b)[i].style == style && (a + b)[i].zmode == zmode &&
        (a + b)[i].color == color && |(a + b)[i].quads| == n
    {
      if i < |a| {
        assert (a + b)[i] == a[i];
      } else {
        assert (a + b)[i] == b[i - |a|];
      }
    }
  }

  /** The filled pieces of a frustum are filled triangles, the wire pieces wire lines. */
  lemma {:induction false} FrustumPiecesOfKind(zmode: Bit, k: Corners, apex: V4, color: Color)
    ensures AllOfKind(FrustumSides(zmode, k, apex, color), ShapeTriangle, StyleFilled, zmode, color, 3)
    ensures AllOfKind(FrustumFarFace(zmode, k, color), ShapeTriangle, StyleFilled, zmode, color, 3)
    ensures AllOfKind(FrustumApexLines(zmode, k, apex, color), ShapeLine, StyleWire, zmode, color, 2)
    ensures AllOfKind(FrustumFarLines(zmode, k, color), ShapeLine, StyleWire, zmode, color, 2)
  {
  }

  /**
   * What `imdd_frustum` submits: six filled triangles (four sides and the
   * far face) when filled, otherwise eight lines (four edges from the apex
   * and the far rectangle).
   */
  function FrustumSubmissions(
    ops: FloatOps, style: Bit, zmode: Bit, xAxis: V4, yAxis: V4, zAxis: V4, apex: V4, color: Color): (subs: seq<Submission>)
  {
    var k := FrustumCorners(ops, xAxis, yAxis, zAxis, apex);
    if style == StyleFilled then FrustumSides(zmode, k, apex, color) + FrustumFarFace(zmode, k, color)
    else FrustumApexLines(zmode, k, apex, color) + FrustumFarLines(zmode, k, color)
  }

  /**
   * A filled frustum is six filled triangles, a wire one eight wire lines,
   * all in the frustum's zmode and colour.
   */
  lemma {:induction false} FrustumSubmissionsOfKind(
    ops: FloatOps, style: Bit, zmode: Bit, xAxis: V4, yAxis: V4, zAxis: V4, apex: V4, color: Color)
    ensures var subs := FrustumSubmissions(ops, style, zmode, xAxis, yAxis, zAxis, apex, color);
      |subs| == (if style == StyleFilled then 6 else 8) &&
      (style == StyleFilled ==> AllOfKind(subs, ShapeTriangle, StyleFilled, zmode, color, 3)) &&
      (style != StyleFilled ==> AllOfKind(subs, ShapeLine, StyleWire, zmode, color, 2))
  {
    var k := FrustumCorners(ops, xAxis, yAxis, zAxis, apex);
    FrustumPiecesOfKind(zmode, k, apex, color);
    if style == StyleFilled {
      AllOfKindAppend(FrustumSides(zmode, k, apex, color), FrustumFarFace(zmode, k, color), ShapeTriangle, StyleFilled, zmode, color, 3);
    } else {
      AllOfKindAppend(FrustumApexLines(zmode, k, apex, color), FrustumFarLines(zmode, k, color), ShapeLine, StyleWire, zmode, color, 2);
    }
  }

  /** Submitting `a` and then `b` is submitting `a + b`. */
  lemma {:induction false} SubmitAllAppend(v: StoreView, a: seq<Submission>, b: seq<Submission>)
    requires WellFormed(v)
    ensures SubmitAll(v, a + b) == SubmitAll(SubmitAll(v, a), b)
    decreases |b|
  {
    if |b| == 0 {
      assert a + b == a;
    } else {
      var n := |b| - 1;
      assert (a + b)[..|a + b| - 1] == a + b[..n];
      SubmitAllAppend(v, a, b[..n]);
    }
  }

  /** Submitting two in a row. */
  lemma {:induction false} SubmitAllTwo(v: StoreView, a: Submission, b: Submission)
    requires WellFormed(v)
    ensures SubmitAll(v, [a, b]) == SubmitSpec(SubmitSpec(v, a), b)
  {
    assert [a, b][..1] == [a];
    assert [a][..0] == [];
    assert SubmitAll(v, []) == v;
    assert SubmitAll(v, [a]) == SubmitSpec(v, a);
  }

  /** Submitting four in a row. */
  lemma {:induction false} SubmitAllFour(v: StoreView, a: Submission, b: Submission, c: Submission, d: Submission)
    requires WellFormed(v)
    ensures SubmitAll(v, [a, b, c, d]) == SubmitSpec(SubmitSpec(SubmitAll(v, [a, b]), c), d)
  {
    assert [a, b, c, d][..3] == [a, b, c];
    assert [a, b, c][..2] == [a, b];
  }

  /** The first four submissions of `imdd_frustum` when filled. */
  method SubmitFrustumSides(store: ShapeStore, zmode: Bit, k: Corners, apex: V4, color: Color)
    requires store.Valid()
    modifies store, store.headerStore, store.bucketSizes, store.dataQwStore
    ensures store.Valid()
    ensures store.View() == SubmitAll(old(store.View()), FrustumSides(zmode, k, apex, color))
  {
    ghost var v0 := store.View();
    Triangle(store, StyleFilled, zmode, k.c0, apex, k.c1, color);
    Triangle(store, StyleFilled, zmode, k.c1, apex, k.c3, color);
    SubmitAllTwo(v0, FilledTriangle(zmode, k.c0, apex, k.c1, color), FilledTriangle(zmode, k.c1, apex, k.c3, color));
    Triangle(store, StyleFilled, zmode, k.c3, apex, k.c2, color);
    Triangle(store, StyleFilled, zmode, k.c2, apex, k.c0, color);
    SubmitAllFour(v0, FilledTriangle(zmode, k.c0, apex, k.c1, color), FilledTriangle(zmode, k.c1, apex, k.c3, color),
      FilledTriangle(zmode, k.c3, apex, k.c2, color), FilledTriangle(zmode, k.c2, apex, k.c0, color));
  }

  /** The last two submissions of `imdd_frustum` when filled. */
  method SubmitFrustumFarFace(store: ShapeStore, zmode: Bit, k: Corners, color: Color)
    requires store.Valid()
    modifies store, store.headerStore, store.bucketSizes, store.dataQwStore
    ensures store.Valid()
    ensures store.View() == SubmitAll(old(store.View()), FrustumFarFace(zmode, k, color))
  {
    ghost var v0 := store.View();
    Triangle(store, StyleFilled, zmode, k.c0, k.c1, k.c3, color);
    Triangle(store, StyleFilled, zmode, k.c3, k.c2, k.c0, color);
    SubmitAllTwo(v0, FilledTriangle(zmode, k.c0, k.c1, k.c3, color), FilledTriangle(zmode, k.c3, k.c2, k.c0, color));
  }

  /** The first four submissions of `imdd_frustum` when wire. */
  method SubmitFrustumApexLines(store: ShapeStore, zmode: Bit, k: Corners, apex: V4, color: Color)
    requires store.Valid()
    modifies store, store.headerStore, store.bucketSizes, store.dataQwStore
    ensures store.Valid()
    ensures store.View() == SubmitAll(old(store.View()), FrustumApexLines(zmode, k, apex, color))
  {
    ghost var v0 := store.View();
    Line(store, zmode, apex, k.c0, color);
    Line(store, zmode, apex, k.c1, color);
    SubmitAllTwo(v0, WireLine(zmode, apex, k.c0, color), WireLine(zmode, apex, k.c1, color));
    Line(store, zmode, apex, k.c2, color);
    Line(store, zmode, apex, k.c3, color);
    SubmitAllFour(v0, WireLine(zmode, apex, k.c0, color), WireLine(zmode, apex, k.c1, color),
      WireLine(zmode, apex, k.c2, color), WireLine(zmode, apex, k.c3, color));
  }

  /** The last four submissions of `imdd_frustum` when wire. */
  method SubmitFrustumFarLines(store: ShapeStore, zmode: Bit, k: Corners, color: Color)
    requires store.Valid()
    modifies store, store.headerStore, store.bucketSizes, store.dataQwStore
    ensures store.Valid()
    ensures store.View() == SubmitAll(old(store.View()), FrustumFarLines(zmode, k, color))
  {
    ghost var v0 := store.View();
    Line(store, zmode, k.c0, k.c1, color);
    Line(store, zmode, k.c2, k.c3, color);
    SubmitAllTwo(v0, WireLine(zmode, k.c0, k.c1, color), WireLine(zmode, k.c2, k.c3, color));
    Line(store, zmode, k.c0, k.c2, color);
    Line(store, zmode, k.c1, k.c3, color);
    SubmitAllFour(v0, WireLine(zmode, k.c0, k.c1, color), WireLine(zmode, k.c2, k.c3, color),
      WireLine(zmode, k.c0, k.c2, color), WireLine(zmode, k.c1, k.c3, color));
  }

  /** `imdd_frustum`: the submissions of `FrustumSubmissions`, in order. */
  method Frustum(
    store: ShapeStore, ops: FloatOps, style: Bit, zmode: Bit,
    xAxis: V4, yAxis: V4, zAxis: V4, apex: V4, color: Color)
    requires store.Valid()
    modifies store, store.headerStore, store.bucketSizes, store.dataQwStore
    ensures store.Valid()
    ensures store.View() == SubmitAll(old(store.View()), FrustumSubmissions(ops, style, zmode, xAxis, yAxis, zAxis, apex, color))
  {
    var k := FrustumCorners(ops, xAxis, yAxis, zAxis, apex);
    ghost var v0 := store.View();
    if style == StyleFilled {
      SubmitFrustumSides(store, zmode, k, apex, color);
      SubmitFrustumFarFace(store, zmode, k, color);
      SubmitAllAppend(v0, FrustumSides(zmode, k, apex, color), FrustumFarFace(zmode, k, color));
    } else {
      SubmitFrustumApexLines(store, zmode, k, apex, color);
      SubmitFrustumFarLines(store, zmode, k, color);
      SubmitAllAppend(v0, FrustumApexLines(zmode, k, apex, color), FrustumFarLines(zmode, k, color));
    }
  }
}
