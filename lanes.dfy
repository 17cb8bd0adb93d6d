/**
 * The portable four-lane vector of the library (the `imdd_v4` record and the
 * lane-structural operations of its scalar fallback).
 *
 * A float lane is kept as its 32-bit IEEE-754 bit pattern, so that copying a
 * lane, moving it to another lane or flipping its sign bit is exact.  The
 * arithmetic the library does on lanes (add, subtract, multiply, divide,
 * square root) is not modelled: it is supplied from outside as a `FloatOps`
 * record, and everything built on it is specified only by where its inputs
 * and outputs are routed.
 */
module Lanes {

  /** A single-precision float, represented by its bit pattern. */
  datatype F32 = F32(bits: bv32)

  /** Reinterpret a 32-bit integer as a float (the union pun of `imdd_asfloat`). */
  function AsFloat(u: bv32): F32 {
    F32(u)
  }

  /** Reinterpret a float as a 32-bit integer (the union pun of `imdd_asuint`). */
  function AsUint(f: F32): bv32 {
    f.bits
  }

  /** The two puns are mutually inverse bijections. */
  lemma {:induction false} PunRoundTrip(u: bv32, f: F32)
    ensures AsUint(AsFloat(u)) == u
    ensures AsFloat(AsUint(f)) == f
    ensures forall g: F32 :: AsUint(g) == AsUint(f) ==> g == f
  {
  }

  const Zero: F32 := F32(0)            // 0.0f
  const OneHalf: F32 := F32(0x3F00_0000) // 0.5f
  const One: F32 := F32(0x3F80_0000)    // 1.0f

  const SignBit: bv32 := 0x8000_0000

  datatype V4 = V4(x: F32, y: F32, z: F32, w: F32)

  /** Lane `i` of `v`, counting x, y, z, w as 0, 1, 2, 3. */
  function Lane(v: V4, i: nat): F32
    requires i < 4
  {
    if i == 0 then v.x else if i == 1 then v.y else if i == 2 then v.z else v.w
  }

  /** Two vectors are equal exactly when all four lanes are. */
  lemma {:induction false} LanesDetermineVector(a: V4, b: V4)
    requires forall i :: 0 <= i < 4 ==> Lane(a, i) == Lane(b, i)
    ensures a == b
  {
    assert Lane(a, 0) == Lane(b, 0) && Lane(a, 1) == Lane(b, 1);
    assert Lane(a, 2) == Lane(b, 2) && Lane(a, 3) == Lane(b, 3);
  }

  function Init4f(x: F32, y: F32, z: F32, w: F32): (v: V4)
    ensures Lane(v, 0) == x && Lane(v, 1) == y && Lane(v, 2) == z && Lane(v, 3) == w
  {
    V4(x, y, z, w)
  }

  function Init3f(x: F32, y: F32, z: F32): (v: V4)
    ensures Lane(v, 0) == x && Lane(v, 1) == y && Lane(v, 2) == z
    ensures Lane(v, 3) == Zero
  {
    V4(x, y, z, Zero)
  }

  function Init1f(s: F32): (v: V4)
    ensures forall i :: 0 <= i < 4 ==> Lane(v, i) == s
  {
    V4(s, s, s, s)
  }

  /** `imdd_v4_const_zero()`: every lane is +0.0. */
  function ConstZero(): (v: V4)
    ensures forall i :: 0 <= i < 4 ==> Lane(v, i) == Zero
  {
    Init1f(Zero)
  }

  /** Read three consecutive floats starting at `p[off]`; w is 0. */
  function Load3f(p: seq<F32>, off: nat): (v: V4)
    requires off + 3 <= |p|
    ensures forall i :: 0 <= i < 3 ==> Lane(v, i) == p[off + i]
    ensures Lane(v, 3) == Zero
  {
    Init3f(p[off], p[off + 1], p[off + 2])
  }

  /** The float array after `imdd_v4_store_3f(p + off, v)`. */
  function Stored3f(p: seq<F32>, off: nat, v: V4): (r: seq<F32>)
    requires off + 3 <= |p|
    ensures |r| == |p|
    ensures forall i :: 0 <= i < 3 ==> r[off + i] == Lane(v, i)
    ensures forall j :: 0 <= j < |p| && !(off <= j < off + 3) ==> r[j] == p[j]
  {
    p[off := v.x][off + 1 := v.y][off + 2 := v.z]
  }

  /** Writes the x, y and z lanes of `v` to `p[off..off+3]`, and nothing else. */
  method Store3f(p: array<F32>, off: nat, v: V4)
    requires off + 3 <= p.Length
    modifies p
    ensures p[..] == Stored3f(old(p[..]), off, v)
  {
    p[off] := v.x;
    p[off + 1] := v.y;
    p[off + 2] := v.z;
  }

  /** Storing what was just loaded leaves the floats as they were. */
  lemma {:induction false} StoreOfLoadIsIdentity(p: seq<F32>, off: nat)
    requires off + 3 <= |p|
    ensures Stored3f(p, off, Load3f(p, off)) == p
  {
    var r := Stored3f(p, off, Load3f(p, off));
    forall j | 0 <= j < |p|
      ensures r[j] == p[j]
    {
      if off <= j < off + 3 {
        assert r[off + (j - off)] == Lane(Load3f(p, off), j - off);
      }
    }
  }

  function SwizXXXX(v: V4): (r: V4)
    ensures forall i :: 0 <= i < 4 ==> Lane(r, i) == Lane(v, 0)
  {
    Init1f(v.x)
  }

  function SwizYYYY(v: V4): (r: V4)
    ensures forall i :: 0 <= i < 4 ==> Lane(r, i) == Lane(v, 1)
  {
    Init1f(v.y)
  }

  function SwizZZZZ(v: V4): (r: V4)
    ensures forall i :: 0 <= i < 4 ==> Lane(r, i) == Lane(v, 2)
  {
    Init1f(v.z)
  }

  function SwizWWWW(v: V4): (r: V4)
    ensures forall i :: 0 <= i < 4 ==> Lane(r, i) == Lane(v, 3)
  {
    Init1f(v.w)
  }

  /** The result of `imdd_v4_set_x(a, b)` and its siblings: lane `n` taken from `b`. */
  function SetX(a: V4, b: V4): (r: V4)
    ensures Lane(r, 0) == Lane(b, 0)
    ensures forall i :: 1 <= i < 4 ==> Lane(r, i) == Lane(a, i)
  {
    a.(x := b.x)
  }

  function SetY(a: V4, b: V4): (r: V4)
    ensures Lane(r, 1) == Lane(b, 1)
    ensures forall i :: 0 <= i < 4 && i != 1 ==> Lane(r, i) == Lane(a, i)
  {
    a.(y := b.y)
  }

  function SetZ(a: V4, b: V4): (r: V4)
    ensures Lane(r, 2) == Lane(b, 2)
    ensures forall i :: 0 <= i < 4 && i != 2 ==> Lane(r, i) == Lane(a, i)
  {
    a.(z := b.z)
  }

  function SetW(a: V4, b: V4): (r: V4)
    ensures Lane(r, 3) == Lane(b, 3)
    ensures forall i :: 0 <= i < 3 ==> Lane(r, i) == Lane(a, i)
  {
    a.(w := b.w)
  }

  /** Four rows, as the transpose macro reads and writes them. */
  datatype Rows = Rows(r0: V4, r1: V4, r2: V4, r3: V4)

  function Row(m: Rows, i: nat): V4
    requires i < 4
  {
    if i == 0 then m.r0 else if i == 1 then m.r1 else if i == 2 then m.r2 else m.r3
  }

  /**
   * `imdd_v4_transpose_inplace`: rows 0..2 become the x, y and z columns of
   * the input; row 3 is not reassigned.
   */
  function TransposeInPlace(m: Rows): (t: Rows)
    ensures forall i, j :: 0 <= i < 3 && 0 <= j < 4 ==> Lane(Row(t, i), j) == Lane(Row(m, j), i)
    ensures t.r3 == m.r3
  {
    Rows(
      Init4f(m.r0.x, m.r1.x, m.r2.x, m.r3.x),
      Init4f(m.r0.y, m.r1.y, m.r2.y, m.r3.y),
      Init4f(m.r0.z, m.r1.z, m.r2.z, m.r3.z),
      m.r3)
  }

  /** XOR one lane's bit pattern with the sign bit of another. */
  function FlipSign(a: F32, b: F32): (r: F32)
    ensures AsUint(r) & !SignBit == AsUint(a) & !SignBit
    ensures AsUint(r) & SignBit == (AsUint(a) ^ AsUint(b)) & SignBit
  {
    F32(a.bits ^ (b.bits & SignBit))
  }

  /** Flipping one lane by the same sign twice restores it. */
  lemma {:induction false} FlipSignTwice(a: F32, b: F32)
    ensures FlipSign(FlipSign(a, b), b) == a
  {
    assert (a.bits ^ (b.bits & SignBit)) ^ (b.bits & SignBit) == a.bits;
  }

  /** A clear sign bit flips nothing. */
  lemma {:induction false} FlipSignByPositive(a: F32, b: F32)
    requires AsUint(b) & SignBit == 0
    ensures FlipSign(a, b) == a
  {
    assert a.bits ^ (b.bits & SignBit) == a.bits;
  }

  /** `imdd_v4_mul_sign`: each lane of `a` gets its sign flipped where `b`'s is set. */
  function MulSign(a: V4, b: V4): (r: V4)
    ensures forall i :: 0 <= i < 4 ==> Lane(r, i) == FlipSign(Lane(a, i), Lane(b, i))
  {
    V4(FlipSign(a.x, b.x), FlipSign(a.y, b.y), FlipSign(a.z, b.z), FlipSign(a.w, b.w))
  }

  /** Flipping by the same sign twice restores the vector. */
  lemma {:induction false} MulSignInvolution(a: V4, b: V4)
    ensures MulSign(MulSign(a, b), b) == a
  {
    FlipSignTwice(a.x, b.x);
    FlipSignTwice(a.y, b.y);
    FlipSignTwice(a.z, b.z);
    FlipSignTwice(a.w, b.w);
  }

  /** A non-negative sign source leaves the vector unchanged. */
  lemma {:induction false} MulSignByPositive(a: V4, b: V4)
    requires forall i :: 0 <= i < 4 ==> AsUint(Lane(b, i)) & SignBit == 0
    ensures MulSign(a, b) == a
  {
    FlipSignByPositive(a.x, Lane(b, 0));
    FlipSignByPositive(a.y, Lane(b, 1));
    FlipSignByPositive(a.z, Lane(b, 2));
    FlipSignByPositive(a.w, Lane(b, 3));
  }

  /**
   * The float arithmetic of the library, supplied from outside: the model
   * never looks inside these operations.
   */
  datatype FloatOps = FloatOps(
    add: (F32, F32) -> F32,
    sub: (F32, F32) -> F32,
    mul: (F32, F32) -> F32,
    div: (F32, F32) -> F32,
    sqrt: F32 -> F32)

  function Add(ops: FloatOps, a: V4, b: V4): V4 {
    V4(ops.add(a.x, b.x), ops.add(a.y, b.y), ops.add(a.z, b.z), ops.add(a.w, b.w))
  }

  function Sub(ops: FloatOps, a: V4, b: V4): V4 {
    V4(ops.sub(a.x, b.x), ops.sub(a.y, b.y), ops.sub(a.z, b.z), ops.sub(a.w, b.w))
  }

  function Mul(ops: FloatOps, a: V4, b: V4): V4 {
    V4(ops.mul(a.x, b.x), ops.mul(a.y, b.y), ops.mul(a.z, b.z), ops.mul(a.w, b.w))
  }

  /** The dot product of the xyz parts, splatted to all lanes. */
  function Dot3(ops: FloatOps, a: V4, b: V4): V4 {
    Init1f(ops.add(ops.add(ops.mul(a.x, b.x), ops.mul(a.y, b.y)), ops.mul(a.z, b.z)))
  }

  function Cross(ops: FloatOps, a: V4, b: V4): V4 {
    Init3f(
      ops.sub(ops.mul(a.y, b.z), ops.mul(a.z, b.y)),
      ops.sub(ops.mul(a.z, b.x), ops.mul(a.x, b.z)),
      ops.sub(ops.mul(a.x, b.y), ops.mul(a.y, b.x)))
  }

  function Normalize3(ops: FloatOps, a: V4): V4 {
    var len := ops.sqrt(ops.add(ops.add(ops.mul(a.x, a.x), ops.mul(a.y, a.y)), ops.mul(a.z, a.z)));
    Init3f(ops.div(a.x, len), ops.div(a.y, len), ops.div(a.z, len))
  }
}
