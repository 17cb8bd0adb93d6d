/**
 * The shape store: a header array, a pool of quads and a per-bucket
 * histogram carved out of one caller-supplied block, with `imdd_init`,
 * `imdd_reset` and `imdd_reserve` over it.
 *
 * The two atomic counters are modelled as plain counters with one producer:
 * a fetch-and-add is a read followed by an increment.  Counters are unbounded
 * naturals.
 */
module Store {
  import opened Wrappers
  import opened Lanes
  import opened Header
  import opened Buffers

  const U32Limit: nat := 0x1_0000_0000
  const U64Limit: nat := 0x1_0000_0000_0000_0000

  const HeaderBytes: nat := 8   // sizeof(imdd_shape_header_t)
  const QuadBytes: nat := 16    // sizeof(imdd_v4)

  // ---------------------------------------------------------------------
  // Carving the block (imdd_init)

  /** Where `imdd_init` puts the header array and the quad pool, and their capacities. */
  datatype Layout = Layout(headersAt: nat, headerCapacity: nat, dataAt: nat, dataQwCapacity: nat)

  /** `(a + 15) & ~15`. */
  function RoundUp16(a: nat): (r: nat)
    ensures r % 16 == 0 && a <= r < a + 16
  {
    (a + 15) / 16 * 16
  }

  /**
   * The layout as `imdd_init` computes it for a block of `size` bytes at
   * address `mem`, the store record taking the first `storeBytes`: an eighth
   * of the rest for headers, then the pool from the next 16-byte boundary.
   * The pool size is a 64-bit difference truncated to 32 bits.
   */
  function LayoutAsWritten(mem: nat, size: nat, storeBytes: nat): Layout
    requires storeBytes <= size < U32Limit && mem + size < U64Limit
  {
    var memEnd := mem + size;
    var headersAt := mem + storeBytes;
    var headerCapacity := ((memEnd - headersAt) / 8) % U32Limit / 8;
    var dataAt := RoundUp16(headersAt + headerCapacity * 8);
    var span := (memEnd - dataAt) % U64Limit;
    Layout(headersAt, headerCapacity, dataAt, span % U32Limit / 16)
  }

  /** The layout the store uses: as written, with the pool capped at 2^24 quads. */
  function LayoutOf(mem: nat, size: nat, storeBytes: nat): (l: Layout)
    requires storeBytes <= size < U32Limit && mem + size < U64Limit
    ensures l.dataQwCapacity <= OffsetLimit
    ensures l == LayoutAsWritten(mem, size, storeBytes).(dataQwCapacity := l.dataQwCapacity)
    ensures l.dataQwCapacity == LayoutAsWritten(mem, size, storeBytes).dataQwCapacity
      <==> LayoutAsWritten(mem, size, storeBytes).dataQwCapacity <= OffsetLimit
  {
    var l := LayoutAsWritten(mem, size, storeBytes);
    if l.dataQwCapacity <= OffsetLimit then l else l.(dataQwCapacity := OffsetLimit)
  }

  /**
   * The header array starts right after the store record and takes about an
   * eighth of the remaining bytes; the pool is 16-byte aligned and follows
   * it; and whenever any header fits, both lie inside `[mem, mem + size)`.
   * The pool can only start past the end of the block (where the 64-bit
   * difference wraps around) when there is no room for a single header.
   */
  lemma {:induction false} LayoutFitsBlock(mem: nat, size: nat, storeBytes: nat)
    requires storeBytes <= size < U32Limit && mem + size < U64Limit
    ensures var l := LayoutAsWritten(mem, size, storeBytes);
      l.headersAt == mem + storeBytes &&
      64 * l.headerCapacity <= size - storeBytes < 64 * (l.headerCapacity + 1) &&
      l.headersAt + 8 * l.headerCapacity <= l.dataAt &&
      l.dataAt % 16 == 0 &&
      (l.dataAt > mem + size ==> l.headerCapacity == 0) &&
      (l.headerCapacity > 0 ==> l.dataAt + 16 * l.dataQwCapacity <= mem + size)
  {
    var l := LayoutAsWritten(mem, size, storeBytes);
    HeaderCapacityOf(mem, size, storeBytes);
    if l.headerCapacity > 0 {
      PoolInsideBlock(mem, size, storeBytes);
    }
  }

  /** The header capacity is the remaining bytes divided by 64, the 32-bit cast changing nothing. */
  lemma {:induction false} HeaderCapacityOf(mem: nat, size: nat, storeBytes: nat)
    requires storeBytes <= size < U32Limit && mem + size < U64Limit
    ensures LayoutAsWritten(mem, size, storeBytes).headerCapacity == (size - storeBytes) / 8 / 8
  {
    var r := size - storeBytes;
    assert (r / 8) % U32Limit == r / 8;
  }

  /** Casting a value that fits to a wider or equal width keeps it. */
  lemma {:induction false} SmallModulus(x: nat, m: nat)
    requires x < m
    ensures x % m == x
  {
  }

  /** With room for a header, the pool starts inside the block and ends by its end. */
  lemma {:induction false} PoolInsideBlock(mem: nat, size: nat, storeBytes: nat)
    requires storeBytes <= size < U32Limit && mem + size < U64Limit
    requires LayoutAsWritten(mem, size, storeBytes).headerCapacity > 0
    ensures var l := LayoutAsWritten(mem, size, storeBytes);
      l.dataAt <= mem + size && l.dataAt + 16 * l.dataQwCapacity <= mem + size
  {
    var l := LayoutAsWritten(mem, size, storeBytes);
    PoolStartsInsideBlock(mem, size, storeBytes);
    var span := mem + size - l.dataAt;
    assert span <= size;
    SmallModulus(span, U64Limit);
    SmallModulus(span, U32Limit);
    assert 16 * (span / 16) <= span;
  }

  /** With room for a header, the pool starts inside the block. */
  lemma {:induction false} PoolStartsInsideBlock(mem: nat, size: nat, storeBytes: nat)
    requires storeBytes <= size < U32Limit && mem + size < U64Limit
    requires LayoutAsWritten(mem, size, storeBytes).headerCapacity > 0
    ensures LayoutAsWritten(mem, size, storeBytes).dataAt <= mem + size
  {
    var l := LayoutAsWritten(mem, size, storeBytes);
    var r := size - storeBytes;
    HeaderCapacityOf(mem, size, storeBytes);
    assert 8 * l.headerCapacity <= r / 8;
    var s1 := l.headersAt + 8 * l.headerCapacity;
    assert mem + size - s1 >= 56;
  }

  /** The layout the store uses has the same header array and pool start. */
  lemma {:induction false} LayoutOfFitsBlock(mem: nat, size: nat, storeBytes: nat)
    requires storeBytes <= size < U32Limit && mem + size < U64Limit
    ensures var l := LayoutOf(mem, size, storeBytes);
      l.headersAt == mem + storeBytes &&
      l.headersAt + 8 * l.headerCapacity <= l.dataAt &&
      l.dataAt % 16 == 0 &&
      (l.headerCapacity > 0 ==> l.dataAt + 16 * l.dataQwCapacity <= mem + size)
  {
    LayoutFitsBlock(mem, size, storeBytes);
  }

  /**
   * With a 512 MiB block the pool as written holds more than 2^24 quads,
   * more offsets than the 24-bit header field can hold.
   */
  lemma {:induction false} LargeBlockOutgrowsOffsetField()
    ensures LayoutAsWritten(0, 0x2000_0000, 1176).dataQwCapacity > OffsetLimit
    ensures LayoutOf(0, 0x2000_0000, 1176).dataQwCapacity == OffsetLimit
  {
    var l := LayoutAsWritten(0, 0x2000_0000, 1176);
    assert l.headerCapacity == 8388589;
    assert l.dataAt == 67109888;
    assert l.dataQwCapacity == 29360064;
  }

  // ---------------------------------------------------------------------
  // The store's state as a value

  /** Everything a store holds: counters, capacities, headers, pool and histogram. */
  datatype StoreView = StoreView(
    headerCount: nat,
    dataQwCount: nat,
    headerCapacity: nat,
    dataQwCapacity: nat,
    headers: seq<ShapeHeader>,
    pool: seq<V4>,
    buckets: seq<nat>)

  /** The storage lengths agree with the capacities and there is one counter per bucket. */
  predicate WellFormed(v: StoreView) {
    |v.headers| == v.headerCapacity && |v.pool| == v.dataQwCapacity && |v.buckets| == BucketCount
  }

  /** The header slots that were actually written: the counter may run past capacity. */
  function Visible(v: StoreView): (n: nat)
    ensures n <= v.headerCapacity && n <= v.headerCount
    ensures n == v.headerCount <==> v.headerCount <= v.headerCapacity
  {
    if v.headerCount < v.headerCapacity then v.headerCount else v.headerCapacity
  }

  /** How many valid headers of `hs` fall into bucket `b`. */
  function CountBucket(hs: seq<ShapeHeader>, b: int): (n: nat)
    ensures n <= |hs|
  {
    if |hs| == 0 then 0
    else
      var last := hs[|hs| - 1];
      CountBucket(hs[..|hs| - 1], b) + if IsValidShape(last) && BucketIndex(last) == b then 1 else 0
  }

  /** The histogram a sequence of headers should have. */
  function Histogram(hs: seq<ShapeHeader>): (r: seq<nat>)
    ensures |r| == BucketCount
  {
    seq(BucketCount, b => CountBucket(hs, b))
  }

  /** Appending a header bumps its bucket if its shape is valid, and changes nothing else. */
  lemma {:induction false} HistogramAppend(hs: seq<ShapeHeader>, h: ShapeHeader)
    ensures Histogram(hs + [h]) == if IsValidShape(h)
      then Histogram(hs)[BucketIndex(h) := Histogram(hs)[BucketIndex(h)] + 1]
      else Histogram(hs)
  {
    assert (hs + [h])[..|hs|] == hs;
  }

  /** No valid header lands in a bucket whose shape code is 8 or more. */
  lemma {:induction false} HistogramOnlyValidBuckets(hs: seq<ShapeHeader>, b: nat)
    requires 8 * ShapeCount <= b
    ensures CountBucket(hs, b) == 0
  {
    if |hs| > 0 {
      HistogramOnlyValidBuckets(hs[..|hs| - 1], b);
    }
  }

  /**
   * The store invariant: storage matches the capacities, the pool fits the
   * 24-bit offset field, and the histogram counts exactly the valid headers
   * in the written slots.
   */
  predicate Inv(v: StoreView) {
    WellFormed(v) && v.dataQwCapacity <= OffsetLimit && v.buckets == Histogram(v.headers[..Visible(v)])
  }

  /** The histogram of an empty store. */
  function ZeroBuckets(): (z: seq<nat>)
    ensures |z| == BucketCount && forall b :: 0 <= b < BucketCount ==> z[b] == 0
  {
    seq(BucketCount, _ => 0)
  }

  /** An empty store of the given capacities (what `imdd_init` produces). */
  function Empty(headers: seq<ShapeHeader>, pool: seq<V4>): (v: StoreView)
    requires |pool| <= OffsetLimit
    ensures Inv(v) && Visible(v) == 0
  {
    StoreView(0, 0, |headers|, |pool|, headers, pool, ZeroBuckets())
  }

  // ---------------------------------------------------------------------
  // Reset

  /** `imdd_reset`: both counters and every histogram entry are zero again. */
  function ResetSpec(v: StoreView): StoreView {
    v.(headerCount := 0, dataQwCount := 0, buckets := ZeroBuckets())
  }

  /**
   * Resetting keeps capacities, headers and pool as they were, restores the
   * invariant whatever the state, and leaves no written slot behind.
   */
  lemma {:induction false} ResetEmptiesStore(v: StoreView)
    requires WellFormed(v) && v.dataQwCapacity <= OffsetLimit
    ensures var r := ResetSpec(v);
      Inv(r) && Visible(r) == 0 &&
      r.headerCapacity == v.headerCapacity && r.dataQwCapacity == v.dataQwCapacity &&
      r.headers == v.headers && r.pool == v.pool &&
      forall b :: 0 <= b < BucketCount ==> r.buckets[b] == 0
  {
    assert v.headers[..0] == [];
  }

  // ---------------------------------------------------------------------
  // Reserve

  /** What a reservation leaves behind: the new state, and the data offset if one was handed out. */
  datatype Reserved = Reserved(view: StoreView, data: Option<nat>)

  /**
   * The steps of `imdd_reserve` after the header slot and the data run have
   * been taken, given whether the data run was accepted: write the header
   * (with the sentinel shape if not), and count a valid one in its bucket.
   */
  function Commit(v: StoreView, shape: ShapeKind, style: Bit, zmode: Bit, color: Color, qw: nat, fits: bool): (r: Reserved)
    requires WellFormed(v) && v.headerCount < v.headerCapacity
    ensures WellFormed(r.view)
  {
    var slot := v.headerCount;
    var offset := v.dataQwCount;
    var stored: ShapeField := if fits then shape else ShapeCount;
    var h := MakeHeader(style, zmode, color, stored, offset);
    var buckets := if stored < ShapeCount then v.buckets[BucketIndex(h) := v.buckets[BucketIndex(h)] + 1] else v.buckets;
    Reserved(
      v.(headerCount := slot + 1, dataQwCount := offset + qw, headers := v.headers[slot := h], buckets := buckets),
      if fits then Some(offset) else None)
  }

  /**
   * `imdd_reserve` on a store, with the data check as the source has it
   * (imdd.h:363): only the start of the run is compared with the capacity.
   */
  function ReserveAsWritten(v: StoreView, shape: ShapeKind, style: Bit, zmode: Bit, color: Color, qw: nat): (r: Reserved)
    requires WellFormed(v)
    ensures v.headerCount < v.headerCapacity ==> (r.data.Some? <==> v.dataQwCount < v.dataQwCapacity)
  {
    if v.headerCount >= v.headerCapacity then Reserved(v.(headerCount := v.headerCount + 1), None)
    else Commit(v, shape, style, zmode, color, qw, v.dataQwCount < v.dataQwCapacity)
  }

  /**
   * A run of `qw` quads at `offset` is handed out: it starts inside a pool of
   * `capacity` quads and ends by its end.
   */
  predicate RunFits(offset: nat, qw: nat, capacity: nat) {
    offset < capacity && offset + qw <= capacity
  }

  /**
   * `imdd_reserve` on a store, with the data check corrected to cover the
   * whole run: the run must start inside the pool, as the source demands, and
   * also end by the pool's end.  Every call takes the next header slot.  Past capacity nothing
   * else changes; otherwise the data counter advances by `qw`, the header
   * records the request (the shape replaced by the sentinel when the run does
   * not fit), and only the header's bucket can grow, by one, and only for a
   * valid shape.
   */
  function ReserveSpec(v: StoreView, shape: ShapeKind, style: Bit, zmode: Bit, color: Color, qw: nat): (r: Reserved)
    requires WellFormed(v)
    ensures WellFormed(r.view)
    ensures r.view.headerCount == v.headerCount + 1
    ensures r.view.headerCapacity == v.headerCapacity && r.view.dataQwCapacity == v.dataQwCapacity
    ensures r.view.pool == v.pool
    ensures v.headerCount >= v.headerCapacity ==> r == Reserved(v.(headerCount := v.headerCount + 1), None)
    ensures v.headerCount < v.headerCapacity ==>
      var h := r.view.headers[v.headerCount];
      r.view.dataQwCount == v.dataQwCount + qw &&
      (r.data.Some? <==> RunFits(v.dataQwCount, qw, v.dataQwCapacity)) &&
      (r.data.Some? ==> r.data.value == v.dataQwCount) &&
      h.style == style && h.zmode == zmode && h.color == color && h.blend == BlendFromColor(color) &&
      h.shape == (if r.data.Some? then shape else ShapeCount) &&
      h.dataQwOffset == Truncate24(v.dataQwCount) &&
      (forall i :: 0 <= i < |v.headers| && i != v.headerCount ==> r.view.headers[i] == v.headers[i]) &&
      (forall b :: 0 <= b < BucketCount ==>
        r.view.buckets[b] == v.buckets[b] + if r.data.Some? && b == BucketIndex(h) then 1 else 0)
  {
    if v.headerCount >= v.headerCapacity then Reserved(v.(headerCount := v.headerCount + 1), None)
    else Commit(v, shape, style, zmode, color, qw, RunFits(v.dataQwCount, qw, v.dataQwCapacity))
  }

  /** A reservation keeps the store invariant. */
  lemma {:induction false} ReservePreservesInv(v: StoreView, shape: ShapeKind, style: Bit, zmode: Bit, color: Color, qw: nat)
    requires Inv(v)
    ensures Inv(ReserveSpec(v, shape, style, zmode, color, qw).view)
  {
    var r := ReserveSpec(v, shape, style, zmode, color, qw).view;
    if v.headerCount < v.headerCapacity {
      var n := v.headerCount;
      var h := r.headers[n];
      assert Visible(r) == n + 1;
      assert r.headers[..n + 1] == v.headers[..n] + [h];
      HistogramAppend(v.headers[..n], h);
    }
  }

  /**
   * With the pool capped at 2^24 quads, the offset stored in an accepted
   * header is the offset handed to the caller, so the compiler reads the
   * data back from where it was written.
   */
  lemma {:induction false} AcceptedOffsetIsStored(v: StoreView, shape: ShapeKind, style: Bit, zmode: Bit, color: Color, qw: nat)
    requires Inv(v)
    ensures var r := ReserveSpec(v, shape, style, zmode, color, qw);
      r.data.Some? ==>
        r.view.headers[v.headerCount].dataQwOffset == r.data.value &&
        r.data.value + qw <= v.dataQwCapacity &&
        IsValidShape(r.view.headers[v.headerCount])
  {
  }

  /** A store of capacity 4 quads, empty, with two header slots. */
  function SmallStore(): (v: StoreView)
    ensures Inv(v)
  {
    Empty([ShapeHeader(0, 0, 0, 0, 0, 0), ShapeHeader(0, 0, 0, 0, 0, 0)], [ConstZero(), ConstZero(), ConstZero(), ConstZero()])
  }

  /**
   * The start-only check hands out a run that overruns the pool: after a
   * triangle (3 quads) in a pool of 4, a box (2 quads) is accepted at offset 3,
   * and its caller writes quads 3 and 4.  The corrected check refuses it and
   * stores the sentinel instead.
   */
  lemma {:induction false} StartOnlyCheckOverrunsPool()
    ensures var r1 := ReserveAsWritten(SmallStore(), ShapeTriangle, StyleFilled, ZmodeTest, 0xFF00_0000, 3);
      var r2 := ReserveAsWritten(r1.view, ShapeAabb, StyleFilled, ZmodeTest, 0xFF00_0000, 2);
      r2.data == Some(3) && 3 + 2 > SmallStore().dataQwCapacity
    ensures var r1 := ReserveSpec(SmallStore(), ShapeTriangle, StyleFilled, ZmodeTest, 0xFF00_0000, 3);
      var r2 := ReserveSpec(r1.view, ShapeAabb, StyleFilled, ZmodeTest, 0xFF00_0000, 2);
      r2.data == None && r2.view.headers[1].shape == ShapeCount
    ensures var r1 := ReserveAsWritten(SmallStore(), ShapeTriangle, StyleFilled, ZmodeTest, 0xFF00_0000, 4);
      ReserveAsWritten(r1.view, ShapeSphere, StyleFilled, ZmodeTest, 0xFF00_0000, 0).data == None
    ensures var r1 := ReserveSpec(SmallStore(), ShapeTriangle, StyleFilled, ZmodeTest, 0xFF00_0000, 4);
      var r2 := ReserveSpec(r1.view, ShapeSphere, StyleFilled, ZmodeTest, 0xFF00_0000, 0);
      r2.data == None && r2.view.headers[1].shape == ShapeCount
  {
  }

  /**
   * With a pool larger than 2^24 quads, an accepted run at offset 2^24 is
   * recorded with offset 0: the compiler would read the data of the first
   * shape instead.
   */
  lemma {:induction false} OversizedPoolAliasesOffsets(v: StoreView)
    requires WellFormed(v) && v.headerCount < v.headerCapacity
    requires v.dataQwCount == OffsetLimit && v.dataQwCapacity == OffsetLimit + 1
    ensures var r := ReserveSpec(v, ShapeSphere, StyleWire, ZmodeTest, 0xFF00_0000, 1);
      r.data == Some(OffsetLimit) && r.view.headers[v.headerCount].dataQwOffset == 0
  {
  }

  // ---------------------------------------------------------------------
  // Sequences of reservations

  /** The arguments of one `imdd_reserve` call. */
  datatype Request = Request(shape: ShapeKind, style: Bit, zmode: Bit, color: Color, qw: nat)

  /** The total quads asked for by `reqs`. */
  function QwSum(reqs: seq<Request>): nat {
    if |reqs| == 0 then 0 else QwSum(reqs[..|reqs| - 1]) + reqs[|reqs| - 1].qw
  }

  /** The state after serving `reqs` in order, with the offset each call got back. */
  datatype Served = Served(view: StoreView, data: seq<Option<nat>>)

  function ReserveAll(v: StoreView, reqs: seq<Request>): (s: Served)
    requires WellFormed(v)
    ensures WellFormed(s.view) && |s.data| == |reqs|
    ensures s.view.headerCapacity == v.headerCapacity && s.view.dataQwCapacity == v.dataQwCapacity
  {
    if |reqs| == 0 then Served(v, [])
    else
      var before := ReserveAll(v, reqs[..|reqs| - 1]);
      var q := reqs[|reqs| - 1];
      var r := ReserveSpec(before.view, q.shape, q.style, q.zmode, q.color, q.qw);
      Served(r.view, before.data + [r.data])
  }

  lemma {:induction false} QwSumMonotone(reqs: seq<Request>, i: nat, j: nat)
    requires i <= j <= |reqs|
    ensures QwSum(reqs[..i]) <= QwSum(reqs[..j])
    decreases j - i
  {
    if i < j {
      QwSumMonotone(reqs, i, j - 1);
      assert reqs[..j][..j - 1] == reqs[..j - 1];
    }
  }

  /** What request `i` got back is what serving it after the requests before it gives. */
  lemma {:induction false} ReserveAllStep(v: StoreView, reqs: seq<Request>, i: nat)
    requires WellFormed(v) && i < |reqs|
    ensures var before := ReserveAll(v, reqs[..i]).view;
      var q := reqs[i];
      var r := ReserveSpec(before, q.shape, q.style, q.zmode, q.color, q.qw);
      ReserveAll(v, reqs).data[i] == r.data &&
      (before.headerCount < before.headerCapacity ==>
        ReserveAll(v, reqs).view.headers[before.headerCount] == r.view.headers[before.headerCount])
    decreases |reqs|
  {
    var n := |reqs| - 1;
    if i < n {
      ReserveAllStep(v, reqs[..n], i);
      assert reqs[..n][..i] == reqs[..i];
      var before := ReserveAll(v, reqs[..i]).view;
      if before.headerCount < before.headerCapacity {
        ReserveAllCounters(v, reqs[..n], i);
      }
    } else {
      assert reqs[..i] == reqs[..n];
    }
  }

  /** Serving more requests never moves a header counter back, and the slot count is exact. */
  lemma {:induction false} ReserveAllCounters(v: StoreView, reqs: seq<Request>, i: nat)
    requires WellFormed(v) && i < |reqs|
    ensures ReserveAll(v, reqs).view.headerCount == v.headerCount + |reqs|
    ensures ReserveAll(v, reqs[..i]).view.headerCount < ReserveAll(v, reqs).view.headerCount
    decreases |reqs|
  {
    var n := |reqs| - 1;
    if n > 0 {
      ReserveAllCounters(v, reqs[..n], if i < n then i else 0);
    }
    if i == n {
      assert reqs[..i] == reqs[..n];
    } else {
      assert reqs[..n][..i] == reqs[..i];
    }
    if n == 0 {
      assert reqs[..0] == [];
    }
  }

  /**
   * Requests that fit both capacities: a header slot each, the runs end by
   * the pool's end, and the last run (so every run) starts inside the pool.
   */
  predicate AllFit(v: StoreView, reqs: seq<Request>) {
    v.headerCount + |reqs| <= v.headerCapacity &&
    v.dataQwCount + QwSum(reqs) <= v.dataQwCapacity &&
    (|reqs| > 0 ==> v.dataQwCount + QwSum(reqs[..|reqs| - 1]) < v.dataQwCapacity)
  }

  /**
   * The counters after requests that all find a header slot: the data
   * counter advances by every run, handed out or not.
   */
  lemma {:induction false} ReserveAllFits(v: StoreView, reqs: seq<Request>)
    requires WellFormed(v)
    requires v.headerCount + |reqs| <= v.headerCapacity
    ensures ReserveAll(v, reqs).view.headerCount == v.headerCount + |reqs|
    ensures ReserveAll(v, reqs).view.dataQwCount == v.dataQwCount + QwSum(reqs)
  {
    if |reqs| > 0 {
      var n := |reqs| - 1;
      ReserveAllFits(v, reqs[..n]);
    }
  }

  /**
   * When the requests fit both capacities, they are all accepted: request
   * `i` gets header slot `headerCount + i`, holding its shape, style, zmode
   * and colour, and the run starting at the data counter plus the quads of
   * the requests before it.
   */
  lemma {:induction false} SequentialReservesAreConsecutive(v: StoreView, reqs: seq<Request>, i: nat)
    requires WellFormed(v)
    requires AllFit(v, reqs)
    requires i < |reqs|
    ensures var s := ReserveAll(v, reqs);
      var h := s.view.headers[v.headerCount + i];
      s.data[i] == Some(v.dataQwCount + QwSum(reqs[..i])) &&
      h.shape == reqs[i].shape && h.style == reqs[i].style && h.zmode == reqs[i].zmode &&
      h.color == reqs[i].color
  {
    RequestFits(v, reqs, i);
    ReserveAllStep(v, reqs, i);
    var before := ReserveAll(v, reqs[..i]).view;
    var r := ReserveSpec(before, reqs[i].shape, reqs[i].style, reqs[i].zmode, reqs[i].color, reqs[i].qw);
    assert r.data == Some(before.dataQwCount);
  }

  /** Request `i` of a run that fits finds a free slot and room for its quads. */
  lemma {:induction false} RequestFits(v: StoreView, reqs: seq<Request>, i: nat)
    requires WellFormed(v)
    requires AllFit(v, reqs)
    requires i < |reqs|
    ensures var before := ReserveAll(v, reqs[..i]).view;
      before.headerCount == v.headerCount + i < before.headerCapacity &&
      before.dataQwCount == v.dataQwCount + QwSum(reqs[..i]) &&
      RunFits(before.dataQwCount, reqs[i].qw, before.dataQwCapacity)
  {
    QwSumMonotone(reqs, i, |reqs| - 1);
    QwSumMonotone(reqs, i + 1, |reqs|);
    assert reqs[..|reqs|] == reqs;
    assert reqs[..i + 1][..i] == reqs[..i];
    assert QwSum(reqs[..i + 1]) == QwSum(reqs[..i]) + reqs[i].qw;
    ReserveAllFits(v, reqs[..i]);
  }

  /** Runs handed out to consecutive in-capacity requests never overlap. */
  lemma {:induction false} SequentialRunsAreDisjoint(v: StoreView, reqs: seq<Request>, i: nat, j: nat)
    requires WellFormed(v)
    requires AllFit(v, reqs)
    requires i < j < |reqs|
    ensures var s := ReserveAll(v, reqs);
      s.data[i].Some? && s.data[j].Some? && s.data[i].value + reqs[i].qw <= s.data[j].value
  {
    SequentialReservesAreConsecutive(v, reqs, i);
    SequentialReservesAreConsecutive(v, reqs, j);
    assert reqs[..i + 1][..i] == reqs[..i];
    QwSumMonotone(reqs, i + 1, j);
  }

  // ---------------------------------------------------------------------
  // The store object

  /** `imdd_shape_store_t`: the counters change, the capacities and storage do not. */
  class ShapeStore {
    var headerCount: nat
    var dataQwCount: nat
    const headerCapacity: nat
    const dataQwCapacity: nat
    const headerStore: array<ShapeHeader>
    const dataQwStore: array<V4>
    const bucketSizes: array<nat>

    function View(): StoreView
      reads this, headerStore, dataQwStore, bucketSizes
    {
      StoreView(headerCount, dataQwCount, headerCapacity, dataQwCapacity,
        headerStore[..], dataQwStore[..], bucketSizes[..])
    }

    predicate Valid()
      reads this, headerStore, dataQwStore, bucketSizes
    {
      Inv(View())
    }

    /**
     * `imdd_init`: carve the block, zero both counters and every bucket.
     * Header slots and quads start out blank; the source leaves them
     * uninitialised and never reads them before they are written.
     */
    constructor Init(mem: nat, size: nat, storeBytes: nat)
      requires storeBytes <= size < U32Limit && mem + size < U64Limit
      ensures Valid()
      ensures headerCapacity == LayoutOf(mem, size, storeBytes).headerCapacity
      ensures dataQwCapacity == LayoutOf(mem, size, storeBytes).dataQwCapacity
      ensures headerCount == 0 && dataQwCount == 0
      ensures forall b :: 0 <= b < BucketCount ==> bucketSizes[b] == 0
      ensures fresh(headerStore) && fresh(dataQwStore) && fresh(bucketSizes)
    {
      var l := LayoutOf(mem, size, storeBytes);
      headerStore := new ShapeHeader[l.headerCapacity](_ => ShapeHeader(0, 0, 0, 0, 0, 0));
      headerCount := 0;
      headerCapacity := l.headerCapacity;
      var buckets := new nat[BucketCount];
      for i := 0 to BucketCount
        invariant forall b :: 0 <= b < i ==> buckets[b] == 0
      {
        buckets[i] := 0;
      }
      bucketSizes := buckets;
      dataQwStore := new V4[l.dataQwCapacity](_ => ConstZero());
      dataQwCount := 0;
      dataQwCapacity := l.dataQwCapacity;
      new;
      assert bucketSizes[..] == ZeroBuckets();
      assert headerStore[..][..0] == [];
    }

    /** `imdd_reset`: zero the counters and every bucket; nothing else changes. */
    method Reset()
      requires Valid()
      modifies this, bucketSizes
      ensures Valid()
      ensures View() == ResetSpec(old(View()))
    {
      headerCount := 0;
      for i := 0 to BucketCount
        invariant headerCount == 0
        invariant forall b :: 0 <= b < i ==> bucketSizes[b] == 0
        invariant forall b :: i <= b < BucketCount ==> bucketSizes[b] == old(bucketSizes[b])
      {
        bucketSizes[i] := 0;
      }
      dataQwCount := 0;
      assert bucketSizes[..] == ZeroBuckets();
      ResetEmptiesStore(old(View()));
    }

    /** `imdd_reserve` on a store: takes a header slot, then a data run, as `ReserveSpec` says. */
    method Reserve(shape: ShapeKind, style: Bit, zmode: Bit, color: Color, qw: nat) returns (data: Option<nat>)
      requires Valid()
      modifies this, headerStore, bucketSizes
      ensures Valid()
      ensures Reserved(View(), data) == ReserveSpec(old(View()), shape, style, zmode, color, qw)
    {
      ReservePreservesInv(View(), shape, style, zmode, color, qw);
      var headerOffset := headerCount;
      headerCount := headerCount + 1;
      if headerOffset >= headerCapacity {
        return None;
      }

      var dataQwOffset := dataQwCount;
      dataQwCount := dataQwCount + qw;
      var stored: ShapeField := shape;
      if dataQwOffset >= dataQwCapacity || dataQwOffset + qw > dataQwCapacity {
        stored := ShapeCount;
        data := None;
      } else {
        data := Some(dataQwOffset);
      }

      var header := MakeHeader(style, zmode, color, stored, dataQwOffset);
      headerStore[headerOffset] := header;

      if stored < ShapeCount {
        var bucketIndex := BucketIndex(header);
        bucketSizes[bucketIndex] := bucketSizes[bucketIndex] + 1;
      }
    }

    /** The caller filling a reserved run: `quads` are copied into the pool at `offset`. */
    method WriteQuads(offset: nat, quads: seq<V4>)
      requires Valid()
      requires offset + |quads| <= dataQwCapacity
      modifies dataQwStore
      ensures Valid()
      ensures View() == old(View()).(pool := Overwrite(old(View()).pool, offset, quads))
    {
      WriteAt(dataQwStore, offset, quads);
    }
  }

  /** `imdd_reserve` with a possibly null store: a null store makes it a no-op. */
  method ReserveInto(store: ShapeStore?, shape: ShapeKind, style: Bit, zmode: Bit, color: Color, qw: nat)
    returns (data: Option<nat>)
    requires store != null ==> store.Valid()
    modifies if store == null then {} else {store, store.headerStore, store.bucketSizes}
    ensures store == null ==> data == None
    ensures store != null ==> store.Valid()
    ensures store != null ==>
              Reserved(store.View(), data) == ReserveSpec(old(store.View()), shape, style, zmode, color, qw)
  {
    if store == null {
      return None;
    }
    data := store.Reserve(shape, style, zmode, color, qw);
  }
}
