/**
 * How the batch compiler turns one stored shape into output: the shape to
 * template-mesh table, the emit descriptor table, the batch indices, the
 * records written to the three output streams, and the emitters that append
 * them at a stream cursor.
 */
module Emit {
  import opened Wrappers
  import opened Lanes
  import opened Header
  import opened Buffers

  // imdd_mesh_enum_t
  const MeshBox: nat := 0
  const MeshSphere: nat := 1
  const MeshCone: nat := 2
  const MeshCylinder: nat := 3
  const MeshCount: nat := 4

  /** `g_imdd_mesh_from_shape`: the template mesh an instanced kind is drawn with. */
  function MeshFromShape(shape: ShapeKind): (m: nat)
    ensures m <= MeshCount
    ensures m == MeshCount <==> shape == ShapeLine || shape == ShapeTriangle
    ensures m == MeshBox <==> shape == ShapeAabb || shape == ShapeObb
    ensures m == MeshSphere <==> shape == ShapeSphere || shape == ShapeEllipsoid
  {
    if shape == ShapeLine || shape == ShapeTriangle then MeshCount
    else if shape == ShapeAabb || shape == ShapeObb then MeshBox
    else if shape == ShapeSphere || shape == ShapeEllipsoid then MeshSphere
    else if shape == ShapeCone then MeshCone
    else MeshCylinder
  }

  const InstanceBatchCount: nat := 32  // MeshCount << 3
  const ArrayBatchCount: nat := 4

  /**
   * `imdd_instance_batch_index` as the compiler calls it, on the mesh of the
   * header's shape and on its style, blend and zmode:
   * `mesh << 3 | style << 2 | blend << 1 | zmode`.
   */
  function InstanceBatchIndex(h: ShapeHeader): (k: nat)
    requires IsValidShape(h) && MeshFromShape(h.shape) < MeshCount
    ensures k < InstanceBatchCount
  {
    MeshFromShape(h.shape) * 8 + h.style * 4 + h.blend * 2 + h.zmode
  }

  /** The instance batch index loses nothing: mesh, style, blend and zmode can be read back. */
  lemma {:induction false} InstanceBatchIndexDecodes(h: ShapeHeader)
    requires IsValidShape(h) && MeshFromShape(h.shape) < MeshCount
    ensures var k := InstanceBatchIndex(h);
      k / 8 == MeshFromShape(h.shape) && (k / 4) % 2 == h.style && (k / 2) % 2 == h.blend && k % 2 == h.zmode
  {
    var k := InstanceBatchIndex(h);
    assert k / 2 == MeshFromShape(h.shape) * 4 + h.style * 2 + h.blend;
    assert k / 4 == MeshFromShape(h.shape) * 2 + h.style;
  }

  /** Headers share an instance batch exactly when they agree on mesh, style, blend and zmode. */
  lemma {:induction false} InstanceBatchIndexInjective(h1: ShapeHeader, h2: ShapeHeader)
    requires IsValidShape(h1) && MeshFromShape(h1.shape) < MeshCount
    requires IsValidShape(h2) && MeshFromShape(h2.shape) < MeshCount
    ensures InstanceBatchIndex(h1) == InstanceBatchIndex(h2) <==>
      (MeshFromShape(h1.shape) == MeshFromShape(h2.shape) &&
       h1.style == h2.style && h1.blend == h2.blend && h1.zmode == h2.zmode)
  {
    InstanceBatchIndexDecodes(h1);
    InstanceBatchIndexDecodes(h2);
  }

  /** `imdd_array_batch_index` on the header's blend and zmode: `blend << 1 | zmode`. */
  function ArrayBatchIndex(h: ShapeHeader): (k: nat)
    ensures k < ArrayBatchCount
  {
    h.blend * 2 + h.zmode
  }

  /** Headers share an array batch exactly when they agree on blend and zmode. */
  lemma {:induction false} ArrayBatchIndexInjective(h1: ShapeHeader, h2: ShapeHeader)
    ensures ArrayBatchIndex(h1) == ArrayBatchIndex(h2) <==> (h1.blend == h2.blend && h1.zmode == h2.zmode)
  {
  }

  datatype InstanceEmitter = EmitAabb | EmitTransform | EmitSphere
  datatype FilledEmitter = EmitFilledTriangle
  datatype WireEmitter = EmitLine | EmitWireTriangle

  /** One row of `g_imdd_emit_instance_desc`: a missing emitter is `None`. */
  datatype EmitDesc = EmitDesc(
    instanceFunc: Option<InstanceEmitter>,
    filledVertexFunc: Option<FilledEmitter>,
    wireVertexFunc: Option<WireEmitter>,
    filledVertexCount: nat,
    wireVertexCount: nat)

  /** `g_imdd_emit_instance_desc`. */
  function EmitDescOf(shape: ShapeKind): EmitDesc {
    if shape == ShapeLine then EmitDesc(None, None, Some(EmitLine), 0, 2)
    else if shape == ShapeTriangle then EmitDesc(None, Some(EmitFilledTriangle), Some(EmitWireTriangle), 3, 6)
    else if shape == ShapeAabb then EmitDesc(Some(EmitAabb), None, None, 0, 0)
    else if shape == ShapeSphere then EmitDesc(Some(EmitSphere), None, None, 0, 0)
    else EmitDesc(Some(EmitTransform), None, None, 0, 0)
  }

  /** The three renderer-facing output streams. */
  datatype Stream = InstanceStream | FilledStream | WireStream

  /**
   * The batch of `stream` that a stored header is emitted into, if any: the
   * three tests the compiler applies to every header, both when counting and
   * when writing.  Headers with an out-of-range shape go nowhere.
   */
  function BatchOf(stream: Stream, h: ShapeHeader): (b: Option<nat>)
    ensures b.Some? ==> b.value < BatchCount(stream)
  {
    if !IsValidShape(h) then None
    else
      var desc := EmitDescOf(h.shape);
      match stream
      case InstanceStream =>
        if desc.instanceFunc.Some?
        then Some(InstanceBatchIndex(h))
        else None
      case FilledStream =>
        if desc.filledVertexFunc.Some? && h.style == StyleFilled
        then Some(ArrayBatchIndex(h))
        else None
      case WireStream =>
        if desc.wireVertexFunc.Some? && h.style == StyleWire
        then Some(ArrayBatchIndex(h))
        else None
  }

  /** The number of batches each stream is partitioned into. */
  function BatchCount(stream: Stream): nat {
    if stream == InstanceStream then InstanceBatchCount else ArrayBatchCount
  }

  /**
   * Which stream each kind feeds: the instance stream for the template-mesh
   * kinds, the filled stream for filled triangles only, the wire stream for
   * wire lines and triangles.  A filled line feeds nothing.
   */
  lemma {:induction false} RoutingByKind(h: ShapeHeader)
    ensures BatchOf(InstanceStream, h).Some? <==> IsValidShape(h) && ShapeAabb <= h.shape
    ensures BatchOf(FilledStream, h).Some? <==> h.shape == ShapeTriangle && h.style == StyleFilled
    ensures BatchOf(WireStream, h).Some? <==>
      (h.shape == ShapeLine || h.shape == ShapeTriangle) && h.style == StyleWire
  {
  }

  /** A header feeds at most one stream, and exactly one unless it is a filled line. */
  lemma {:induction false} RoutingIsExclusive(h: ShapeHeader, s1: Stream, s2: Stream)
    requires BatchOf(s1, h).Some? && BatchOf(s2, h).Some?
    ensures s1 == s2
  {
    RoutingByKind(h);
  }

  lemma {:induction false} EveryValidShapeIsRouted(h: ShapeHeader)
    requires IsValidShape(h) && !(h.shape == ShapeLine && h.style == StyleFilled)
    ensures exists s :: BatchOf(s, h).Some?
  {
    RoutingByKind(h);
    if h.shape == ShapeLine || h.shape == ShapeTriangle {
      if h.style == StyleFilled {
        assert BatchOf(FilledStream, h).Some?;
      } else {
        assert BatchOf(WireStream, h).Some?;
      }
    } else {
      assert BatchOf(InstanceStream, h).Some?;
    }
  }

  /** The route depends only on the bucket (style, zmode, blend, shape). */
  lemma {:induction false} BatchOfDependsOnBucket(stream: Stream, h: ShapeHeader)
    ensures BatchOf(stream, HeaderFromBucket(BucketIndex(h))) == BatchOf(stream, h)
  {
    HeaderRoundTrip(h);
  }

  /** Output units (instances, or vertices) one shape adds to its batch. */
  function UnitsPerShape(stream: Stream, shape: ShapeKind): nat {
    match stream
    case InstanceStream => 1
    case FilledStream => EmitDescOf(shape).filledVertexCount
    case WireStream => EmitDescOf(shape).wireVertexCount
  }

  /** What header `h` contributes to batch `k` of `stream`. */
  function Amount(stream: Stream, h: ShapeHeader, k: nat): nat {
    if BatchOf(stream, h) == Some(k) then UnitsPerShape(stream, h.shape) else 0
  }

  // The records of the three output streams.
  datatype InstanceTransform = InstanceTransform(row0: V4, row1: V4, row2: V4)
  datatype InstanceColor = InstanceColor(col: Color)
  datatype FilledVertex = FilledVertex(posCol: V4, normalPad: V4)
  datatype WireVertex = WireVertex(posCol: V4)

  /** Quad `i` of a shape's data run. */
  function QuadAt(data: seq<V4>, i: nat): V4 {
    if i < |data| then data[i] else ConstZero()
  }

  /** A position with the colour's bit pattern put in its w lane. */
  function WithColor(p: V4, col: Color): (r: V4)
    ensures forall i :: 0 <= i < 3 ==> Lane(r, i) == Lane(p, i)
    ensures AsUint(Lane(r, 3)) == col
  {
    SetW(p, Init1f(AsFloat(col)))
  }

  /** The vertices `imdd_emit_line` and `imdd_emit_wire_triangle` write. */
  function WireVertices(e: WireEmitter, col: Color, data: seq<V4>): (vs: seq<WireVertex>)
    ensures |vs| == if e == EmitLine then 2 else 6
  {
    var a := WireVertex(WithColor(QuadAt(data, 0), col));
    var b := WireVertex(WithColor(QuadAt(data, 1), col));
    match e
    case EmitLine => [a, b]
    case EmitWireTriangle =>
      var c := WireVertex(WithColor(QuadAt(data, 2), col));
      [a, b, b, c, c, a]
  }

  /** A wire triangle is its three edges a-b, b-c, c-a, each as a vertex pair. */
  lemma {:induction false} WireTriangleIsThreeEdges(col: Color, data: seq<V4>)
    ensures var vs := WireVertices(EmitWireTriangle, col, data);
      var ls := WireVertices(EmitLine, col, data);
      vs[0] == ls[0] && vs[1] == ls[1] && vs[2] == vs[1] && vs[4] == vs[3] && vs[5] == vs[0]
  {
  }

  /** Each wire vertex is the corresponding data point with the colour in w. */
  lemma {:induction false} WireVerticesCarryColor(e: WireEmitter, col: Color, data: seq<V4>, i: nat)
    requires i < |WireVertices(e, col, data)|
    ensures var p := WireVertices(e, col, data)[i].posCol;
      var src := if e == EmitLine then i else [0, 1, 1, 2, 2, 0][i];
      AsUint(Lane(p, 3)) == col &&
      forall j :: 0 <= j < 3 ==> Lane(p, j) == Lane(QuadAt(data, src), j)
  {
  }

  /** normalize((c - a) x (a - b)), the face normal of a filled triangle. */
  function TriangleNormal(ops: FloatOps, a: V4, b: V4, c: V4): V4 {
    Normalize3(ops, Cross(ops, Sub(ops, c, a), Sub(ops, a, b)))
  }

  /** The vertices `imdd_emit_filled_triangle` writes. */
  function FilledVertices(ops: FloatOps, col: Color, data: seq<V4>): (vs: seq<FilledVertex>)
    ensures |vs| == 3
    ensures forall i :: 0 <= i < 3 ==>
      vs[i].normalPad == TriangleNormal(ops, QuadAt(data, 0), QuadAt(data, 1), QuadAt(data, 2))
    ensures forall i :: 0 <= i < 3 ==> vs[i].posCol == WithColor(QuadAt(data, i), col)
  {
    var a, b, c := QuadAt(data, 0), QuadAt(data, 1), QuadAt(data, 2);
    var n := TriangleNormal(ops, a, b, c);
    [FilledVertex(WithColor(a, col), n), FilledVertex(WithColor(b, col), n), FilledVertex(WithColor(c, col), n)]
  }

  /** The transform rows an instance emitter writes. */
  function InstanceTransformOf(ops: FloatOps, e: InstanceEmitter, data: seq<V4>): InstanceTransform {
    match e
    case EmitTransform =>
      InstanceTransform(QuadAt(data, 0), QuadAt(data, 1), QuadAt(data, 2))
    case EmitAabb =>
      var min, max := QuadAt(data, 0), QuadAt(data, 1);
      var half := Init1f(OneHalf);
      var centre := Mul(ops, Add(ops, max, min), half);
      var halfExtent := Mul(ops, Sub(ops, max, min), half);
      var zero := ConstZero();
      var t := TransposeInPlace(Rows(SetX(zero, halfExtent), SetY(zero, halfExtent), SetZ(zero, halfExtent), centre));
      InstanceTransform(t.r0, t.r1, t.r2)
    case EmitSphere =>
      var centreRadius := QuadAt(data, 0);
      var radius := SwizWWWW(centreRadius);
      var zero := ConstZero();
      var t := TransposeInPlace(Rows(SetX(zero, radius), SetY(zero, radius), SetZ(zero, radius), centreRadius));
      InstanceTransform(t.r0, t.r1, t.r2)
  }

  /** The generic transform emitter copies the three stored rows verbatim. */
  lemma {:induction false} TransformCopiesRows(ops: FloatOps, data: seq<V4>)
    requires |data| >= 3
    ensures InstanceTransformOf(ops, EmitTransform, data) == InstanceTransform(data[0], data[1], data[2])
  {
  }

  /**
   * An axis-aligned box becomes a diagonal scale by its half extent plus a
   * translation to its centre, in 3x4 row-major form.
   */
  lemma {:induction false} AabbTransformIsScaleAndTranslation(ops: FloatOps, data: seq<V4>)
    ensures var t := InstanceTransformOf(ops, EmitAabb, data);
      var min, max := QuadAt(data, 0), QuadAt(data, 1);
      var c := Mul(ops, Add(ops, max, min), Init1f(OneHalf));
      var e := Mul(ops, Sub(ops, max, min), Init1f(OneHalf));
      t.row0 == V4(e.x, Zero, Zero, c.x) &&
      t.row1 == V4(Zero, e.y, Zero, c.y) &&
      t.row2 == V4(Zero, Zero, e.z, c.z)
  {
  }

  /** A sphere becomes a uniform scale by its radius (w) plus a translation to its centre (xyz). */
  lemma {:induction false} SphereTransformIsScaleAndTranslation(ops: FloatOps, data: seq<V4>)
    ensures var t := InstanceTransformOf(ops, EmitSphere, data);
      var cr := QuadAt(data, 0);
      t.row0 == V4(cr.w, Zero, Zero, cr.x) &&
      t.row1 == V4(Zero, cr.w, Zero, cr.y) &&
      t.row2 == V4(Zero, Zero, cr.w, cr.z)
  {
  }

  /**
   * The counts in the descriptor table are the numbers of vertices the
   * emitters actually write, so counting and writing agree.
   */
  lemma {:induction false} DescCountsMatchEmitters(shape: ShapeKind, ops: FloatOps, col: Color, data: seq<V4>)
    ensures var desc := EmitDescOf(shape);
      (desc.filledVertexFunc.Some? ==> |FilledVertices(ops, col, data)| == desc.filledVertexCount) &&
      (desc.wireVertexFunc.Some? ==>
        |WireVertices(desc.wireVertexFunc.value, col, data)| == desc.wireVertexCount)
  {
  }

  /**
   * A vertex emitter: appends all of `items` at the cursor when they fit
   * before the region's end, and otherwise writes nothing and leaves the
   * cursor where it was.
   */
  method EmitVertices<T>(buf: array<T>, current: nat, end: nat, items: seq<T>) returns (next: nat)
    requires current <= end <= buf.Length
    modifies buf
    ensures next == if current + |items| <= end then current + |items| else current
    ensures buf[..] == if current + |items| <= end then Overwrite(old(buf[..]), current, items) else old(buf[..])
  {
    if current + |items| > end {
      return current;
    }
    WriteAt(buf, current, items);
    next := current + |items|;
  }

  /** `imdd_emit_line`: two vertices, the endpoints with the colour in w. */
  method EmitLineVertices(buf: array<WireVertex>, current: nat, end: nat, col: Color, data: seq<V4>)
    returns (next: nat)
    requires current <= end <= buf.Length
    modifies buf
    ensures var vs := WireVertices(EmitLine, col, data);
      next == (if current + 2 <= end then current + 2 else current) &&
      buf[..] == if current + 2 <= end then Overwrite(old(buf[..]), current, vs) else old(buf[..])
  {
    next := EmitVertices(buf, current, end, WireVertices(EmitLine, col, data));
  }

  /** `imdd_emit_wire_triangle`: six vertices, the edges a-b, b-c, c-a. */
  method EmitWireTriangleVertices(buf: array<WireVertex>, current: nat, end: nat, col: Color, data: seq<V4>)
    returns (next: nat)
    requires current <= end <= buf.Length
    modifies buf
    ensures var vs := WireVertices(EmitWireTriangle, col, data);
      next == (if current + 6 <= end then current + 6 else current) &&
      buf[..] == if current + 6 <= end then Overwrite(old(buf[..]), current, vs) else old(buf[..])
  {
    next := EmitVertices(buf, current, end, WireVertices(EmitWireTriangle, col, data));
  }

  /** A call through the descriptor's wire emitter pointer. */
  method CallWireEmitter(e: WireEmitter, buf: array<WireVertex>, current: nat, end: nat, col: Color, data: seq<V4>)
    returns (next: nat)
    requires current <= end <= buf.Length
    modifies buf
    ensures var vs := WireVertices(e, col, data);
      next == (if current + |vs| <= end then current + |vs| else current) &&
      buf[..] == if current + |vs| <= end then Overwrite(old(buf[..]), current, vs) else old(buf[..])
  {
    match e {
      case EmitLine =>
        next := EmitLineVertices(buf, current, end, col, data);
      case EmitWireTriangle =>
        next := EmitWireTriangleVertices(buf, current, end, col, data);
    }
  }

  /** `imdd_emit_filled_triangle`: three vertices sharing the face normal. */
  method EmitFilledTriangleVertices(
    buf: array<FilledVertex>, current: nat, end: nat, ops: FloatOps, col: Color, data: seq<V4>)
    returns (next: nat)
    requires current <= end <= buf.Length
    modifies buf
    ensures var vs := FilledVertices(ops, col, data);
      next == (if current + 3 <= end then current + 3 else current) &&
      buf[..] == if current + 3 <= end then Overwrite(old(buf[..]), current, vs) else old(buf[..])
  {
    next := EmitVertices(buf, current, end, FilledVertices(ops, col, data));
  }

  /**
   * `imdd_emit_aabb`, `imdd_emit_transform` and `imdd_emit_sphere`: unless
   * the cursor is at the region's end, write one transform and one colour at
   * the cursor and advance both buffers together.
   */
  method EmitInstance(
    transforms: array<InstanceTransform>, colors: array<InstanceColor>,
    current: nat, end: nat, ops: FloatOps, e: InstanceEmitter, col: Color, data: seq<V4>)
    returns (next: nat)
    requires current <= end <= transforms.Length && end <= colors.Length
    modifies transforms, colors
    ensures next == if current == end then current else current + 1
    ensures transforms[..] == if current == end then old(transforms[..])
      else old(transforms[..])[current := InstanceTransformOf(ops, e, data)]
    ensures colors[..] == if current == end then old(colors[..]) else old(colors[..])[current := InstanceColor(col)]
  {
    if current == end {
      return current;
    }
    transforms[current] := InstanceTransformOf(ops, e, data);
    colors[current] := InstanceColor(col);
    next := current + 1;
  }
}
