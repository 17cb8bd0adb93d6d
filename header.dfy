/**
 * The enumerations of the public interface and the packed shape header.
 *
 * The header is a C bit-field record: style, zmode and blend take one bit
 * each, shape five bits and the data offset 24 bits, followed by a 32-bit
 * colour.  How bit-fields are laid out in a word is left to the
 * implementation by section 6.7.2.1 of ISO/IEC 9899:2011; this model assumes
 * the usual least-significant-bit-first order (style at bit 0, zmode at bit 1,
 * blend at bit 2, shape at bits 3..7, offset at bits 8..31), which makes the
 * low eight bits of the first word the bucket index.
 */
module Header {

  // imdd_style_enum_t
  const StyleFilled: nat := 0
  const StyleWire: nat := 1

  // imdd_shape_enum_t
  const ShapeLine: nat := 0
  const ShapeTriangle: nat := 1
  const ShapeAabb: nat := 2
  const ShapeObb: nat := 3
  const ShapeSphere: nat := 4
  const ShapeEllipsoid: nat := 5
  const ShapeCone: nat := 6
  const ShapeCylinder: nat := 7
  const ShapeCount: nat := 8

  // imdd_blend_enum_t
  const BlendOpaque: nat := 0
  const BlendAlpha: nat := 1

  // imdd_zmode_enum_t
  const ZmodeTest: nat := 0
  const ZmodeNoTest: nat := 1

  /** A one-bit field: the only values style, zmode and blend can hold. */
  type Bit = x: nat | x < 2

  /** A shape kind a caller may submit. */
  type ShapeKind = x: nat | x < 8

  /** The five-bit shape field: the eight kinds, the sentinel 8, and 9..31. */
  type ShapeField = x: nat | x < 32

  const OffsetLimit: nat := 0x100_0000

  /** The 24-bit data offset field. */
  type Offset24 = x: nat | x < 0x100_0000

  type Color = bv32

  datatype ShapeHeader = ShapeHeader(
    style: Bit,
    zmode: Bit,
    blend: Bit,
    shape: ShapeField,
    dataQwOffset: Offset24,
    color: Color)

  /** Headers whose shape is the sentinel or beyond are skipped by the compiler. */
  predicate IsValidShape(h: ShapeHeader) {
    h.shape < ShapeCount
  }

  /** The blend mode is derived from the top (alpha) byte of the colour. */
  function BlendFromColor(color: Color): (b: Bit)
    ensures b == BlendOpaque <==> color >> 24 == 0xFF
    ensures b == BlendAlpha <==> color >> 24 != 0xFF
  {
    if color >> 24 != 0xFF then BlendAlpha else BlendOpaque
  }

  /** The test colours: alpha 0xFF draws opaque, alpha 0x7F draws blended. */
  lemma {:induction false} BlendOfTestColors(rgb: Color)
    requires rgb < 0x100_0000
    ensures BlendFromColor(0xFF00_0000 | rgb) == BlendOpaque
    ensures BlendFromColor(0x7F00_0000 | rgb) == BlendAlpha
  {
    assert (0xFF00_0000 | rgb) >> 24 == 0xFF;
    assert (0x7F00_0000 | rgb) >> 24 == 0x7F;
  }

  /** Assigning an offset to the 24-bit field keeps its low 24 bits. */
  function Truncate24(n: nat): (t: Offset24)
    ensures t <= n
    ensures t == n <==> n < OffsetLimit
  {
    n % 0x100_0000
  }

  /**
   * The header `imdd_reserve` writes: the given style, zmode, shape, colour
   * and offset, with the blend derived from the colour.
   */
  function MakeHeader(style: Bit, zmode: Bit, color: Color, shape: ShapeField, offset: nat): (h: ShapeHeader)
    ensures h.style == style && h.zmode == zmode && h.shape == shape && h.color == color
    ensures h.blend == BlendFromColor(color)
    ensures offset < OffsetLimit ==> h.dataQwOffset == offset
  {
    ShapeHeader(style, zmode, BlendFromColor(color), shape, Truncate24(offset), color)
  }

  const BucketCount: nat := 256

  /** The low eight bits of the header: the key shapes are batched by. */
  function BucketIndex(h: ShapeHeader): (b: nat)
    ensures b < BucketCount
    ensures IsValidShape(h) <==> b < 8 * ShapeCount
  {
    h.style + 2 * h.zmode + 4 * h.blend + 8 * h.shape
  }

  /** A header carrying the fields encoded in bucket `b`, with zero offset and colour. */
  function HeaderFromBucket(b: nat): (h: ShapeHeader)
    requires b < BucketCount
  {
    ShapeHeader(b % 2, (b / 2) % 2, (b / 4) % 2, b / 8, 0, 0)
  }

  /** Decoding a bucket and encoding it again gives the same bucket. */
  lemma {:induction false} BucketRoundTrip(b: nat)
    requires b < BucketCount
    ensures BucketIndex(HeaderFromBucket(b)) == b
  {
    var h := HeaderFromBucket(b);
    assert b / 2 == h.zmode + 2 * ((b / 2) / 2);
    assert (b / 2) / 2 == b / 4 && b / 4 == h.blend + 2 * (b / 8);
  }

  /** Encoding a header and decoding it recovers style, zmode, blend and shape. */
  lemma {:induction false} HeaderRoundTrip(h: ShapeHeader)
    ensures HeaderFromBucket(BucketIndex(h)) == h.(dataQwOffset := 0, color := 0)
  {
    var b := BucketIndex(h);
    assert b % 2 == h.style;
    assert b / 2 == h.zmode + 2 * (h.blend + 2 * h.shape);
    assert (b / 2) % 2 == h.zmode;
    assert b / 4 == h.blend + 2 * h.shape;
    assert (b / 4) % 2 == h.blend;
    assert b / 8 == h.shape;
    var d := HeaderFromBucket(b);
    assert d.style == h.style && d.zmode == h.zmode && d.blend == h.blend && d.shape == h.shape;
  }

  /** Two headers share a bucket exactly when their four classified fields agree. */
  lemma {:induction false} BucketDeterminesClass(h1: ShapeHeader, h2: ShapeHeader)
    ensures BucketIndex(h1) == BucketIndex(h2) <==>
      (h1.style == h2.style && h1.zmode == h2.zmode && h1.blend == h2.blend && h1.shape == h2.shape)
  {
    if BucketIndex(h1) == BucketIndex(h2) {
      HeaderRoundTrip(h1);
      HeaderRoundTrip(h2);
    }
  }

  /** The first 32-bit word of the record: the bucket in bits 0..7, the offset above. */
  function PackedWord(h: ShapeHeader): (w: nat)
    ensures w < 0x1_0000_0000
    ensures w % 256 == BucketIndex(h)
  {
    BucketIndex(h) + 256 * h.dataQwOffset
  }

  /** Reading the bit-fields back out of the first word. */
  function UnpackWord(w: nat, color: Color): (h: ShapeHeader)
    requires w < 0x1_0000_0000
  {
    var c := HeaderFromBucket(w % 256);
    c.(dataQwOffset := w / 256, color := color)
  }

  /** The packed word holds every field of the header. */
  lemma {:induction false} PackRoundTrip(h: ShapeHeader)
    ensures UnpackWord(PackedWord(h), h.color) == h
  {
    var w := PackedWord(h);
    assert w / 256 == h.dataQwOffset;
    HeaderRoundTrip(h);
  }

  /** A stored offset reads back as written exactly when it is below 2^24. */
  lemma {:induction false} OffsetRoundTrip(style: Bit, zmode: Bit, color: Color, shape: ShapeField, offset: nat)
    ensures MakeHeader(style, zmode, color, shape, offset).dataQwOffset == offset <==> offset < OffsetLimit
  {
  }

  /**
   * Quads of raw data each kind carries in the pool: the counts the typed
   * submission helpers reserve, and the ones the batch compiler reads back.
   */
  function QuadCount(shape: ShapeKind): (n: nat)
    ensures 1 <= n <= 3
  {
    if shape == ShapeLine || shape == ShapeAabb then 2
    else if shape == ShapeSphere then 1
    else 3
  }
}
