/**
 * `imdd_emit_shapes`: the batch compiler.  It reads a set of stores, counts
 * what every output batch needs from the bucket histograms, cuts each output
 * buffer into one contiguous region per batch (clamped to the buffer's
 * capacity), replays every stored header through its emitter into the region
 * of its batch, and reports each batch's offset and count.
 *
 * The stores are read as values (`StoreView`): the compiler only reads them,
 * and is meant to run once the submitting threads are done.
 */
module Compile {
  import opened Wrappers
  import opened Lanes
  import opened Header
  import opened Buffers
  import opened Store
  import opened Emit

  // ---------------------------------------------------------------------
  // Groups of output units

  /** The number of units in a sequence of groups. */
  function Total<T>(gs: seq<seq<T>>): nat {
    if |gs| == 0 then 0 else Total(gs[..|gs| - 1]) + |gs[|gs| - 1]|
  }

  /** The groups one after another. */
  function Flatten<T>(gs: seq<seq<T>>): (r: seq<T>)
    ensures |r| == Total(gs)
  {
    if |gs| == 0 then [] else Flatten(gs[..|gs| - 1]) + gs[|gs| - 1]
  }

  /**
   * What a region of `room` units holds once the groups have been offered
   * to it in order: each group is appended whole when it fits after what is
   * already there and is dropped otherwise (the emitters' all-or-nothing
   * rule).
   */
  function Placed<T>(gs: seq<seq<T>>, room: nat): (p: seq<T>)
    ensures |p| <= room && |p| <= Total(gs)
  {
    if |gs| == 0 then []
    else
      var prev := Placed(gs[..|gs| - 1], room);
      var g := gs[|gs| - 1];
      if |prev| + |g| <= room then prev + g else prev
  }

  /** With room for everything, every group is placed, in order. */
  lemma {:induction false} PlacedAllWhenRoom<T>(gs: seq<seq<T>>, room: nat)
    requires Total(gs) <= room
    ensures Placed(gs, room) == Flatten(gs)
  {
    if |gs| > 0 {
      PlacedAllWhenRoom(gs[..|gs| - 1], room);
    }
  }

  /** A later group never displaces an earlier one: placing more groups only extends the region. */
  lemma {:induction false} PlacedOnlyGrows<T>(gs: seq<seq<T>>, n: nat, room: nat)
    requires n <= |gs|
    ensures Placed(gs[..n], room) <= Placed(gs, room)
    decreases |gs|
  {
    if n < |gs| {
      var m := |gs| - 1;
      assert gs[..m][..n] == gs[..n];
      PlacedOnlyGrows(gs[..m], n, room);
    } else {
      assert gs[..n] == gs;
    }
  }

  /** With groups of one unit (instances), a region takes exactly as many as fit. */
  lemma {:induction false} PlacedSingletons<T>(gs: seq<seq<T>>, room: nat)
    requires forall i :: 0 <= i < |gs| ==> |gs[i]| == 1
    ensures |Placed(gs, room)| == if |gs| <= room then |gs| else room
  {
    if |gs| > 0 {
      PlacedSingletons(gs[..|gs| - 1], room);
    }
  }

  // ---------------------------------------------------------------------
  // Partitioning a buffer between batches

  /** `counts[0] + ... + counts[n - 1]`. */
  function Sum(counts: seq<nat>, n: nat): nat
    requires n <= |counts|
  {
    if n == 0 then 0 else Sum(counts, n - 1) + counts[n - 1]
  }

  /**
   * The end offset after the first `n` batches: the running total of the
   * counts, pulled back to the capacity whenever it passes it.
   */
  function EndOffset(counts: seq<nat>, cap: nat, n: nat): (e: nat)
    requires n <= |counts|
    ensures e <= cap
  {
    if n == 0 then 0
    else
      var e := EndOffset(counts, cap, n - 1) + counts[n - 1];
      if e > cap then cap else e
  }

  /** Clamping at every step is the same as clamping the total once. */
  lemma {:induction false} EndOffsetIsClampedSum(counts: seq<nat>, cap: nat, n: nat)
    requires n <= |counts|
    ensures EndOffset(counts, cap, n) == if Sum(counts, n) > cap then cap else Sum(counts, n)
  {
    if n > 0 {
      EndOffsetIsClampedSum(counts, cap, n - 1);
    }
  }

  /** Regions never overlap or run backwards: later batches start no earlier. */
  lemma {:induction false} EndOffsetMonotone(counts: seq<nat>, cap: nat, m: nat, n: nat)
    requires m <= n <= |counts|
    ensures EndOffset(counts, cap, m) <= EndOffset(counts, cap, n)
    decreases n
  {
    if m < n {
      EndOffsetMonotone(counts, cap, m, n - 1);
    }
  }

  /** The size of batch `k`'s region. */
  function Room(counts: seq<nat>, cap: nat, k: nat): (r: nat)
    requires k < |counts|
    ensures r <= counts[k]
  {
    EndOffset(counts, cap, k + 1) - EndOffset(counts, cap, k)
  }

  /** When the counts fit the capacity, every batch gets exactly its count. */
  lemma {:induction false} RoomIsCountWhenAllFit(counts: seq<nat>, cap: nat, k: nat)
    requires k < |counts| && Sum(counts, |counts|) <= cap
    ensures Room(counts, cap, k) == counts[k]
  {
    SumMonotone(counts, k + 1, |counts|);
    EndOffsetIsClampedSum(counts, cap, k);
    EndOffsetIsClampedSum(counts, cap, k + 1);
  }

  lemma {:induction false} SumMonotone(counts: seq<nat>, m: nat, n: nat)
    requires m <= n <= |counts|
    ensures Sum(counts, m) <= Sum(counts, n)
    decreases n
  {
    if m < n {
      SumMonotone(counts, m, n - 1);
    }
  }

  /** A stream cursor: where its region begins, the write position, and where the region ends. */
  datatype Cursor = Cursor(begin: nat, current: nat, end: nat)

  /** The cursors the partition loop sets up: batch `k` owns `[EndOffset(k), EndOffset(k + 1))`. */
  predicate Partitioned(cs: seq<Cursor>, counts: seq<nat>, cap: nat) {
    |cs| == |counts| &&
    forall k :: 0 <= k < |cs| ==>
      cs[k].begin == EndOffset(counts, cap, k) && cs[k].end == EndOffset(counts, cap, k + 1)
  }

  /** Batch regions lie one after another. */
  predicate Disjoint(cs: seq<Cursor>) {
    forall k1, k2 :: 0 <= k1 < k2 < |cs| ==> cs[k1].end <= cs[k2].begin
  }

  lemma {:induction false} PartitionIsDisjoint(cs: seq<Cursor>, counts: seq<nat>, cap: nat)
    requires Partitioned(cs, counts, cap)
    ensures Disjoint(cs)
    ensures forall k :: 0 <= k < |cs| ==> cs[k].begin <= cs[k].end <= cap
  {
    forall k1, k2 | 0 <= k1 < k2 < |cs|
      ensures cs[k1].end <= cs[k2].begin
    {
      EndOffsetMonotone(counts, cap, k1 + 1, k2);
    }
    forall k | 0 <= k < |cs|
      ensures cs[k].begin <= cs[k].end <= cap
    {
      EndOffsetMonotone(counts, cap, k, k + 1);
    }
  }

  /** The cursor the partition loop sets up for batch `k`: an empty run at the start of its region. */
  function FreshCursor(counts: seq<nat>, cap: nat, k: nat): Cursor
    requires k < |counts|
  {
    Cursor(EndOffset(counts, cap, k), EndOffset(counts, cap, k), EndOffset(counts, cap, k + 1))
  }

  /**
   * One partition loop of `imdd_emit_shapes`: every batch's cursor starts at
   * the previous batch's end, and the end advances by the batch's count,
   * clamped to the capacity.  Returns the cursors and the final end offset.
   */
  method Partition(counts: seq<nat>, cap: nat) returns (cs: seq<Cursor>, total: nat)
    ensures Partitioned(cs, counts, cap)
    ensures forall k :: 0 <= k < |cs| ==> cs[k].current == cs[k].begin
    ensures total == EndOffset(counts, cap, |counts|)
  {
    cs := [];
    var endOffset := 0;
    var k := 0;
    while k < |counts|
      invariant k <= |counts| && |cs| == k
      invariant endOffset == EndOffset(counts, cap, k)
      invariant forall i :: 0 <= i < k ==> cs[i] == FreshCursor(counts, cap, i)
    {
      var startOffset := endOffset;
      endOffset := endOffset + counts[k];
      if endOffset > cap {
        endOffset := cap;
      }
      assert endOffset == EndOffset(counts, cap, k + 1);
      cs := cs + [Cursor(startOffset, startOffset, endOffset)];
      k := k + 1;
    }
    total := endOffset;
  }

  // ---------------------------------------------------------------------
  // Counting

  predicate AllWellFormed(stores: seq<StoreView>) {
    forall i :: 0 <= i < |stores| ==> WellFormed(stores[i])
  }

  predicate AllInv(stores: seq<StoreView>) {
    forall i :: 0 <= i < |stores| ==> Inv(stores[i])
  }

  /** The headers a store has written: its counter, bounded by the storage. */
  function Written(v: StoreView): (hs: seq<ShapeHeader>)
    requires WellFormed(v)
    ensures |hs| == Visible(v)
  {
    v.headers[..Visible(v)]
  }

  /** Units the headers `hs` add to batch `k` of `stream`. */
  function Demanded(hs: seq<ShapeHeader>, stream: Stream, k: nat): nat {
    if |hs| == 0 then 0 else Demanded(hs[..|hs| - 1], stream, k) + Amount(stream, hs[|hs| - 1], k)
  }

  /** Units the written headers of all stores add to batch `k` of `stream`. */
  function Demand(stores: seq<StoreView>, stream: Stream, k: nat): nat
    requires AllWellFormed(stores)
  {
    if |stores| == 0 then 0
    else Demand(stores[..|stores| - 1], stream, k) + Demanded(Written(stores[|stores| - 1]), stream, k)
  }

  /** The demand of every batch of `stream`. */
  function Demands(stores: seq<StoreView>, stream: Stream): (d: seq<nat>)
    requires AllWellFormed(stores)
    ensures |d| == BatchCount(stream)
    ensures forall k :: 0 <= k < |d| ==> d[k] == Demand(stores, stream, k)
  {
    seq(BatchCount(stream), k requires 0 <= k => Demand(stores, stream, k))
  }

  /** What one shape of each bucket adds to batch `k` of `stream`. */
  function Weights(stream: Stream, k: nat): (w: seq<nat>)
    ensures |w| == BucketCount
    ensures forall b :: 0 <= b < BucketCount ==> w[b] == Amount(stream, HeaderFromBucket(b), k)
  {
    seq(BucketCount, b requires 0 <= b < BucketCount => Amount(stream, HeaderFromBucket(b), k))
  }

  /** `xs[0] * ws[0] + ... + xs[n - 1] * ws[n - 1]`. */
  function Dot(xs: seq<nat>, ws: seq<nat>, n: nat): nat
    requires n <= |xs| && n <= |ws|
  {
    if n == 0 then 0 else Dot(xs, ws, n - 1) + xs[n - 1] * ws[n - 1]
  }

  /** Units buckets `[0, n)` of a histogram add to batch `k` of `stream`, as the counting loop sees them. */
  function BucketDemand(buckets: seq<nat>, stream: Stream, k: nat, n: nat): nat
    requires n <= |buckets| && n <= BucketCount
  {
    Dot(buckets, Weights(stream, k), n)
  }

  /** The count the counting loop arrives at for batch `k` of `stream`. */
  function Counted(stores: seq<StoreView>, stream: Stream, k: nat): nat
    requires AllWellFormed(stores)
  {
    if |stores| == 0 then 0
    else Counted(stores[..|stores| - 1], stream, k) + BucketDemand(stores[|stores| - 1].buckets, stream, k, BucketCount)
  }

  /** A bucket stands for its class: a header adds to a batch what its bucket's representative does. */
  lemma {:induction false} AmountDependsOnBucket(stream: Stream, h: ShapeHeader, k: nat)
    ensures IsValidShape(h) ==> Amount(stream, HeaderFromBucket(BucketIndex(h)), k) == Amount(stream, h, k)
    ensures !IsValidShape(h) ==> Amount(stream, h, k) == 0
  {
    BatchOfDependsOnBucket(stream, h);
    HeaderRoundTrip(h);
  }

  lemma {:induction false} DotOfZero(xs: seq<nat>, ws: seq<nat>, n: nat)
    requires n <= |xs| && n <= |ws|
    requires forall b :: 0 <= b < |xs| ==> xs[b] == 0
    ensures Dot(xs, ws, n) == 0
  {
    if n > 0 {
      DotOfZero(xs, ws, n - 1);
    }
  }

  /** One more in `xs[b]` adds `ws[b]`, if `b` is among the first `n`. */
  lemma {:induction false} DotBump(xs: seq<nat>, ws: seq<nat>, n: nat, b: nat)
    requires n <= |xs| && n <= |ws| && b < |xs|
    ensures Dot(xs[b := xs[b] + 1], ws, n) == Dot(xs, ws, n) + if b < n then ws[b] else 0
  {
    if n > 0 {
      DotBump(xs, ws, n - 1, b);
      var bumped := xs[b := xs[b] + 1];
      if b == n - 1 {
        assert bumped[n - 1] * ws[n - 1] == xs[n - 1] * ws[n - 1] + ws[n - 1];
      } else {
        assert bumped[n - 1] == xs[n - 1];
      }
    }
  }

  /** One more header adds its amount to what the headers demand. */
  lemma {:induction false} DemandedSnoc(init: seq<ShapeHeader>, h: ShapeHeader, stream: Stream, k: nat)
    ensures Demanded(init + [h], stream, k) == Demanded(init, stream, k) + Amount(stream, h, k)
  {
    assert (init + [h])[..|init|] == init;
  }

  /** One more header in the histogram adds the amount of its bucket. */
  lemma {:induction false} BucketDemandSnoc(init: seq<ShapeHeader>, h: ShapeHeader, stream: Stream, k: nat)
    ensures BucketDemand(Histogram(init + [h]), stream, k, BucketCount) ==
      BucketDemand(Histogram(init), stream, k, BucketCount) + Amount(stream, h, k)
  {
    HistogramAppend(init, h);
    AmountDependsOnBucket(stream, h, k);
    if IsValidShape(h) {
      DotBump(Histogram(init), Weights(stream, k), BucketCount, BucketIndex(h));
    }
  }

  /**
   * A reservation refused for want of data still takes its header slot, but
   * the header carries the sentinel shape, reads back with it from the packed
   * word, is routed to no batch of any stream, and adds nothing to what any
   * batch demands.
   */
  lemma {:induction false} RefusedReserveIsNeverDrawn(v: StoreView, shape: ShapeKind, style: Bit, zmode: Bit, color: Color, qw: nat,
                                                      stream: Stream, k: nat)
    requires Inv(v) && v.headerCount < v.headerCapacity
    requires !RunFits(v.dataQwCount, qw, v.dataQwCapacity)
    ensures var res := ReserveSpec(v, shape, style, zmode, color, qw);
      var r := res.view;
      var h := r.headers[v.headerCount];
      res.data == None &&
      UnpackWord(PackedWord(h), h.color).shape == ShapeCount &&
      BatchOf(stream, h) == None &&
      Demanded(Written(r), stream, k) == Demanded(Written(v), stream, k)
  {
    var res := ReserveSpec(v, shape, style, zmode, color, qw);
    var r := res.view;
    var n := v.headerCount;
    var h := r.headers[n];
    PackRoundTrip(h);
    assert Written(r) == r.headers[..n + 1] == v.headers[..n] + [h];
    DemandedSnoc(v.headers[..n], h, stream, k);
  }

  /**
   * Counting by histogram equals counting header by header: the counting
   * loop and the writing loop agree on what each batch needs.
   */
  lemma {:induction false} HistogramDemand(hs: seq<ShapeHeader>, stream: Stream, k: nat)
    ensures BucketDemand(Histogram(hs), stream, k, BucketCount) == Demanded(hs, stream, k)
  {
    if |hs| == 0 {
      DotOfZero(Histogram(hs), Weights(stream, k), BucketCount);
    } else {
      var init, h := hs[..|hs| - 1], hs[|hs| - 1];
      assert hs == init + [h];
      HistogramDemand(init, stream, k);
      DemandedSnoc(init, h, stream, k);
      BucketDemandSnoc(init, h, stream, k);
    }
  }

  /** Over stores that keep their invariant, the counts are the demands. */
  lemma {:induction false} CountedIsDemand(stores: seq<StoreView>, stream: Stream, k: nat)
    requires AllInv(stores)
    ensures Counted(stores, stream, k) == Demand(stores, stream, k)
  {
    if |stores| > 0 {
      var init := stores[..|stores| - 1];
      assert AllInv(init) by {
        forall i | 0 <= i < |init| ensures Inv(init[i]) {
          assert init[i] == stores[i];
        }
      }
      CountedIsDemand(init, stream, k);
      HistogramDemand(Written(stores[|stores| - 1]), stream, k);
    }
  }

  /** The three count arrays of the counting loop: instance batches, filled and wire vertex batches. */
  datatype Counts = Counts(instance: seq<nat>, filled: seq<nat>, wire: seq<nat>) {
    function Of(stream: Stream): seq<nat> {
      match stream
      case InstanceStream => instance
      case FilledStream => filled
      case WireStream => wire
    }
  }

  predicate CountsSized(c: Counts) {
    |c.instance| == InstanceBatchCount && |c.filled| == ArrayBatchCount && |c.wire| == ArrayBatchCount
  }

  /**
   * Adding `size` shapes of `header` to the counts of `stream`: the batch it
   * is routed to, if any, grows by `size` times its units, and nothing else
   * changes.
   */
  lemma {:induction false} BumpIsAmount(xs: seq<nat>, ys: seq<nat>, stream: Stream, header: ShapeHeader, size: nat, route: Option<nat>)
    requires |xs| == |ys| == BatchCount(stream) && route == BatchOf(stream, header)
    requires route.None? ==> ys == xs
    requires route.Some? ==>
      route.value < |xs| && ys == xs[route.value := xs[route.value] + size * UnitsPerShape(stream, header.shape)]
    ensures forall k :: 0 <= k < |xs| ==> ys[k] == xs[k] + size * Amount(stream, header, k)
  {
    forall k | 0 <= k < |xs| ensures ys[k] == xs[k] + size * Amount(stream, header, k) {
      if route == Some(k) {
        assert Amount(stream, header, k) == UnitsPerShape(stream, header.shape);
      } else {
        assert Amount(stream, header, k) == 0;
        assert ys[k] == xs[k];
      }
    }
  }

  /**
   * One step of the counting loop: a bucket of valid shape adds its size
   * (times the vertex count, for the vertex streams) to the batch its class
   * is drawn in.
   */
  method AddBucket(c: Counts, header: ShapeHeader, size: nat) returns (r: Counts)
    requires CountsSized(c)
    ensures CountsSized(r)
    ensures forall k :: 0 <= k < InstanceBatchCount ==>
      r.instance[k] == c.instance[k] + size * Amount(InstanceStream, header, k)
    ensures forall k :: 0 <= k < ArrayBatchCount ==>
      r.filled[k] == c.filled[k] + size * Amount(FilledStream, header, k)
    ensures forall k :: 0 <= k < ArrayBatchCount ==>
      r.wire[k] == c.wire[k] + size * Amount(WireStream, header, k)
  {
    r := c;
    if header.shape >= ShapeCount {
      BumpIsAmount(c.instance, r.instance, InstanceStream, header, size, None);
      BumpIsAmount(c.filled, r.filled, FilledStream, header, size, None);
      BumpIsAmount(c.wire, r.wire, WireStream, header, size, None);
      return;
    }
    var desc := EmitDescOf(header.shape);
    if desc.instanceFunc.Some? {
      var batch := InstanceBatchIndex(header);
      r := r.(instance := r.instance[batch := r.instance[batch] + size]);
      BumpIsAmount(c.instance, r.instance, InstanceStream, header, size, Some(batch));
    } else {
      BumpIsAmount(c.instance, r.instance, InstanceStream, header, size, None);
    }
    if desc.filledVertexFunc.Some? && header.style == StyleFilled {
      var batch := ArrayBatchIndex(header);
      r := r.(filled := r.filled[batch := r.filled[batch] + size * desc.filledVertexCount]);
      BumpIsAmount(c.filled, r.filled, FilledStream, header, size, Some(batch));
    } else {
      BumpIsAmount(c.filled, r.filled, FilledStream, header, size, None);
    }
    if desc.wireVertexFunc.Some? && header.style == StyleWire {
      var batch := ArrayBatchIndex(header);
      r := r.(wire := r.wire[batch := r.wire[batch] + size * desc.wireVertexCount]);
      BumpIsAmount(c.wire, r.wire, WireStream, header, size, Some(batch));
    } else {
      BumpIsAmount(c.wire, r.wire, WireStream, header, size, None);
    }
  }

  /** The inner counting loop: add every bucket of one store to the counts. */
  method CountStore(v: StoreView, c: Counts) returns (r: Counts)
    requires WellFormed(v) && CountsSized(c)
    ensures CountsSized(r)
    ensures forall s: Stream, k :: 0 <= k < BatchCount(s) ==>
      r.Of(s)[k] == c.Of(s)[k] + BucketDemand(v.buckets, s, k, BucketCount)
  {
    r := c;
    var b := 0;
    while b < BucketCount
      invariant b <= BucketCount && CountsSized(r)
      invariant forall s: Stream, k :: 0 <= k < BatchCount(s) ==>
        r.Of(s)[k] == c.Of(s)[k] + BucketDemand(v.buckets, s, k, b)
    {
      ghost var before := r;
      r := AddBucket(r, HeaderFromBucket(b), v.buckets[b]);
      forall s: Stream, k | 0 <= k < BatchCount(s)
        ensures r.Of(s)[k] == before.Of(s)[k] + v.buckets[b] * Amount(s, HeaderFromBucket(b), k)
      {
      }
      b := b + 1;
    }
  }

  /** The counting phase: every store's histogram added into zeroed counts. */
  method CountBatches(stores: seq<StoreView>) returns (c: Counts)
    requires AllWellFormed(stores)
    ensures CountsSized(c)
    ensures forall s: Stream, k :: 0 <= k < BatchCount(s) ==> c.Of(s)[k] == Counted(stores, s, k)
  {
    c := Counts(seq(InstanceBatchCount, _ => 0), seq(ArrayBatchCount, _ => 0), seq(ArrayBatchCount, _ => 0));
    var i := 0;
    while i < |stores|
      invariant i <= |stores| && CountsSized(c)
      invariant forall s: Stream, k :: 0 <= k < BatchCount(s) ==> c.Of(s)[k] == Counted(stores[..i], s, k)
    {
      c := CountStore(stores[i], c);
      assert stores[..i + 1][..i] == stores[..i];
      i := i + 1;
    }
    assert stores[..i] == stores;
  }

  // ---------------------------------------------------------------------
  // What the emitters produce for each stored header

  /** The output units an emitter produces for a header of a store. */
  type ItemsOf<T> = (FloatOps, StoreView, ShapeHeader) -> seq<T>

  /** `data_qw_store + header.data_qw_offset`: the header's data run and what follows it. */
  function DataOf(v: StoreView, h: ShapeHeader): seq<V4> {
    if h.dataQwOffset <= |v.pool| then v.pool[h.dataQwOffset..] else []
  }

  /** The transform an instance emitter writes for `h`. */
  function TransformItems(ops: FloatOps, v: StoreView, h: ShapeHeader): seq<InstanceTransform> {
    if !IsValidShape(h) then []
    else
      match EmitDescOf(h.shape).instanceFunc
      case Some(e) => [InstanceTransformOf(ops, e, DataOf(v, h))]
      case None => []
  }

  /** The colour an instance emitter writes for `h`. */
  function ColorItems(ops: FloatOps, v: StoreView, h: ShapeHeader): seq<InstanceColor> {
    [InstanceColor(h.color)]
  }

  /** The vertices the filled emitter writes for `h`. */
  function FilledItems(ops: FloatOps, v: StoreView, h: ShapeHeader): seq<FilledVertex> {
    if IsValidShape(h) && EmitDescOf(h.shape).filledVertexFunc.Some? then FilledVertices(ops, h.color, DataOf(v, h))
    else []
  }

  /** The vertices the wire emitter writes for `h`. */
  function WireItems(ops: FloatOps, v: StoreView, h: ShapeHeader): seq<WireVertex> {
    if !IsValidShape(h) then []
    else
      match EmitDescOf(h.shape).wireVertexFunc
      case Some(e) => WireVertices(e, h.color, DataOf(v, h))
      case None => []
  }

  /** An emitter writes as many units for a header as the counting phase reserved for it. */
  ghost predicate SizedByDesc<T>(ops: FloatOps, stream: Stream, items: ItemsOf<T>) {
    forall v: StoreView, h: ShapeHeader :: BatchOf(stream, h).Some? ==>
      |items(ops, v, h)| == Amount(stream, h, BatchOf(stream, h).value)
  }

  /** Each instance batch gets one transform and one colour per shape. */
  lemma {:induction false} InstanceItemsSized(ops: FloatOps)
    ensures SizedByDesc(ops, InstanceStream, TransformItems)
    ensures SizedByDesc(ops, InstanceStream, ColorItems)
  {
  }

  /** The filled emitter writes the filled vertex count of the descriptor. */
  lemma {:induction false} FilledItemsSized(ops: FloatOps)
    ensures SizedByDesc(ops, FilledStream, FilledItems)
  {
    forall v: StoreView, h: ShapeHeader | BatchOf(FilledStream, h).Some?
      ensures |FilledItems(ops, v, h)| == Amount(FilledStream, h, BatchOf(FilledStream, h).value)
    {
      DescCountsMatchEmitters(h.shape, ops, h.color, DataOf(v, h));
    }
  }

  /** The wire emitters write the wire vertex count of the descriptor. */
  lemma {:induction false} WireItemsSized(ops: FloatOps)
    ensures SizedByDesc(ops, WireStream, WireItems)
  {
    forall v: StoreView, h: ShapeHeader | BatchOf(WireStream, h).Some?
      ensures |WireItems(ops, v, h)| == Amount(WireStream, h, BatchOf(WireStream, h).value)
    {
      DescCountsMatchEmitters(h.shape, ops, h.color, DataOf(v, h));
    }
  }

  /** The emitters write what the descriptor table counts, on all four output arrays. */
  lemma {:induction false} EmittersMatchCounts(ops: FloatOps)
    ensures SizedByDesc(ops, InstanceStream, TransformItems)
    ensures SizedByDesc(ops, InstanceStream, ColorItems)
    ensures SizedByDesc(ops, FilledStream, FilledItems)
    ensures SizedByDesc(ops, WireStream, WireItems)
  {
    InstanceItemsSized(ops);
    FilledItemsSized(ops);
    WireItemsSized(ops);
  }

  // ---------------------------------------------------------------------
  // Gathering the groups of each batch

  /** The groups the headers `hs` of store `v` send to batch `k` of `stream`, in order. */
  function Gather<T>(ops: FloatOps, v: StoreView, hs: seq<ShapeHeader>, stream: Stream, k: nat, items: ItemsOf<T>)
    : seq<seq<T>>
  {
    if |hs| == 0 then []
    else
      var h := hs[|hs| - 1];
      Gather(ops, v, hs[..|hs| - 1], stream, k, items) + if BatchOf(stream, h) == Some(k) then [items(ops, v, h)] else []
  }

  /** The groups all stores send to batch `k` of `stream`: store by store, header by header. */
  function GatherAll<T>(ops: FloatOps, stores: seq<StoreView>, stream: Stream, k: nat, items: ItemsOf<T>): seq<seq<T>>
    requires AllWellFormed(stores)
  {
    if |stores| == 0 then []
    else
      var v := stores[|stores| - 1];
      GatherAll(ops, stores[..|stores| - 1], stream, k, items) + Gather(ops, v, Written(v), stream, k, items)
  }

  lemma {:induction false} TotalAppend<T>(a: seq<seq<T>>, b: seq<seq<T>>)
    ensures Total(a + b) == Total(a) + Total(b)
    decreases |b|
  {
    if |b| > 0 {
      assert (a + b)[..|a + b| - 1] == a + b[..|b| - 1];
      TotalAppend(a, b[..|b| - 1]);
    } else {
      assert a + b == a;
    }
  }

  /** What the emitters write for a batch is what the headers demand of it. */
  lemma {:induction false} GatherTotal<T>(ops: FloatOps, v: StoreView, hs: seq<ShapeHeader>, stream: Stream, k: nat, items: ItemsOf<T>)
    requires SizedByDesc(ops, stream, items)
    ensures Total(Gather(ops, v, hs, stream, k, items)) == Demanded(hs, stream, k)
  {
    if |hs| > 0 {
      var h := hs[|hs| - 1];
      GatherTotal(ops, v, hs[..|hs| - 1], stream, k, items);
      var g := if BatchOf(stream, h) == Some(k) then [items(ops, v, h)] else [];
      TotalAppend(Gather(ops, v, hs[..|hs| - 1], stream, k, items), g);
      assert Total(g) == Amount(stream, h, k) by {
        if BatchOf(stream, h) == Some(k) {
          assert g[..0] == [];
        }
      }
    }
  }

  lemma {:induction false} GatherAllTotal<T>(ops: FloatOps, stores: seq<StoreView>, stream: Stream, k: nat, items: ItemsOf<T>)
    requires AllWellFormed(stores) && SizedByDesc(ops, stream, items)
    ensures Total(GatherAll(ops, stores, stream, k, items)) == Demand(stores, stream, k)
  {
    if |stores| > 0 {
      var v := stores[|stores| - 1];
      GatherAllTotal(ops, stores[..|stores| - 1], stream, k, items);
      GatherTotal(ops, v, Written(v), stream, k, items);
      TotalAppend(GatherAll(ops, stores[..|stores| - 1], stream, k, items), Gather(ops, v, Written(v), stream, k, items));
    }
  }

  // ---------------------------------------------------------------------
  // Writing through the stream cursors

  /** Replay has finished stores `[0, i)` and the first `j` written headers of store `i`. */
  predicate Position(stores: seq<StoreView>, i: nat, j: nat) {
    AllWellFormed(stores) && i <= |stores| && (i < |stores| ==> j <= Visible(stores[i]))
  }

  /** The groups batch `k` of `stream` has been offered at that point. */
  function SoFar<T>(ops: FloatOps, stores: seq<StoreView>, i: nat, j: nat, stream: Stream, k: nat, items: ItemsOf<T>)
    : seq<seq<T>>
    requires Position(stores, i, j)
  {
    GatherAll(ops, stores[..i], stream, k, items) +
      if i < |stores| then Gather(ops, stores[i], Written(stores[i])[..j], stream, k, items) else []
  }

  /** A batch's region: its written part holds what the groups offered so far placed. */
  ghost predicate Region<T>(buf: seq<T>, c: Cursor, gs: seq<seq<T>>) {
    c.begin <= c.current <= c.end <= |buf| && buf[c.begin..c.current] == Placed(gs, c.end - c.begin)
  }

  /** Every batch region of a stream's buffer is up to date at the replay position. */
  ghost predicate Holds<T>(buf: seq<T>, cs: seq<Cursor>, ops: FloatOps, stores: seq<StoreView>, i: nat, j: nat,
                           stream: Stream, items: ItemsOf<T>)
    requires Position(stores, i, j)
  {
    |cs| == BatchCount(stream) &&
    forall k :: 0 <= k < |cs| ==> Region(buf, cs[k], SoFar(ops, stores, i, j, stream, k, items))
  }

  /** Every cursor sits inside its region, which lies inside the buffer. */
  predicate InBounds(cs: seq<Cursor>, n: nat) {
    forall k :: 0 <= k < |cs| ==> cs[k].current <= cs[k].end <= n
  }

  /**
   * One emitter call through a stream: when the header goes to batch `k`
   * and its units `g` fit before the end of `k`'s region they are written at
   * the cursor and the cursor advances past them; otherwise nothing changes.
   */
  function EmitInto<T>(buf: seq<T>, cs: seq<Cursor>, batch: Option<nat>, g: seq<T>): (r: (seq<T>, seq<Cursor>))
    requires InBounds(cs, |buf|)
    requires batch.Some? ==> batch.value < |cs|
    ensures |r.0| == |buf| && |r.1| == |cs| && InBounds(r.1, |buf|)
    ensures forall k :: 0 <= k < |cs| ==> r.1[k].begin == cs[k].begin && r.1[k].end == cs[k].end
  {
    match batch
    case None => (buf, cs)
    case Some(k) =>
      var c := cs[k];
      if c.current + |g| <= c.end then (Overwrite(buf, c.current, g), cs[k := c.(current := c.current + |g|)])
      else (buf, cs)
  }

  /** Offering one more group to a region appends it when it fits. */
  lemma {:induction false} RegionAppend<T>(buf: seq<T>, c: Cursor, gs: seq<seq<T>>, g: seq<T>)
    requires Region(buf, c, gs)
    ensures c.current + |g| <= c.end ==> Region(Overwrite(buf, c.current, g), c.(current := c.current + |g|), gs + [g])
    ensures c.current + |g| > c.end ==> Region(buf, c, gs + [g])
  {
    assert (gs + [g])[..|gs|] == gs;
    if c.current + |g| <= c.end {
      var b := Overwrite(buf, c.current, g);
      assert b[c.begin..c.current + |g|] == buf[c.begin..c.current] + g by {
        assert b[c.begin..c.current] == buf[c.begin..c.current];
        assert b[c.current..c.current + |g|] == g;
        assert b[c.begin..c.current + |g|] == b[c.begin..c.current] + b[c.current..c.current + |g|];
      }
    }
  }

  /** Writing outside a region leaves it as it was. */
  lemma {:induction false} RegionUntouched<T>(buf: seq<T>, c: Cursor, gs: seq<seq<T>>, at: nat, g: seq<T>)
    requires Region(buf, c, gs) && at + |g| <= |buf|
    requires at + |g| <= c.begin || c.end <= at
    ensures Region(Overwrite(buf, at, g), c, gs)
  {
    var b := Overwrite(buf, at, g);
    assert b[c.begin..c.current] == buf[c.begin..c.current];
  }

  /** One more header: its group is offered to its batch, and to no other. */
  lemma {:induction false} SoFarStep<T>(ops: FloatOps, stores: seq<StoreView>, i: nat, j: nat, stream: Stream, k: nat, items: ItemsOf<T>)
    requires Position(stores, i, j) && i < |stores| && j < Visible(stores[i])
    ensures var h := stores[i].headers[j];
      SoFar(ops, stores, i, j + 1, stream, k, items) ==
        SoFar(ops, stores, i, j, stream, k, items) + if BatchOf(stream, h) == Some(k) then [items(ops, stores[i], h)] else []
  {
    var hs := Written(stores[i]);
    assert hs[..j + 1][..j] == hs[..j];
  }

  /** After the last header of store `i`, replay moves on to store `i + 1`. */
  lemma {:induction false} SoFarNextStore<T>(ops: FloatOps, stores: seq<StoreView>, i: nat, stream: Stream, k: nat, items: ItemsOf<T>)
    requires AllWellFormed(stores) && i < |stores|
    ensures Position(stores, i, Visible(stores[i])) && Position(stores, i + 1, 0)
    ensures SoFar(ops, stores, i + 1, 0, stream, k, items) == SoFar(ops, stores, i, Visible(stores[i]), stream, k, items)
  {
    assert stores[..i + 1][..i] == stores[..i];
    assert Written(stores[i])[..Visible(stores[i])] == Written(stores[i]);
    if i + 1 < |stores| {
      assert Written(stores[i + 1])[..0] == [];
    }
  }

  /** Nothing has been offered before replay starts, and everything once it is over. */
  lemma {:induction false} SoFarEnds<T>(ops: FloatOps, stores: seq<StoreView>, stream: Stream, k: nat, items: ItemsOf<T>)
    requires AllWellFormed(stores)
    ensures Position(stores, 0, 0) && SoFar(ops, stores, 0, 0, stream, k, items) == []
    ensures Position(stores, |stores|, 0) && SoFar(ops, stores, |stores|, 0, stream, k, items) == GatherAll(ops, stores, stream, k, items)
  {
    assert stores[..|stores|] == stores;
    if 0 < |stores| {
      assert Written(stores[0])[..0] == [];
    }
  }

  /** A group offered to batch `k` is appended to `k`'s region when it fits. */
  lemma {:induction false} RegionAfterOwnEmit<T>(buf: seq<T>, cs: seq<Cursor>, g: seq<T>, k: nat, gs: seq<seq<T>>)
    requires InBounds(cs, |buf|) && k < |cs| && Region(buf, cs[k], gs)
    ensures var r := EmitInto(buf, cs, Some(k), g); Region(r.0, r.1[k], gs + [g])
  {
    RegionAppend(buf, cs[k], gs, g);
  }

  /** A group offered to another batch leaves `k`'s region as it was: that batch's region lies elsewhere. */
  lemma {:induction false} RegionAfterOtherEmit<T>(buf: seq<T>, cs: seq<Cursor>, batch: Option<nat>, g: seq<T>, k: nat, gs: seq<seq<T>>)
    requires InBounds(cs, |buf|) && Disjoint(cs) && k < |cs| && batch != Some(k)
    requires batch.Some? ==> batch.value < |cs| && cs[batch.value].begin <= cs[batch.value].current
    requires Region(buf, cs[k], gs)
    ensures var r := EmitInto(buf, cs, batch, g); Region(r.0, r.1[k], gs)
  {
    if batch.Some? {
      var c2 := cs[batch.value];
      if c2.current + |g| <= c2.end {
        assert c2.current + |g| <= cs[k].begin || cs[k].end <= c2.current by {
          if k < batch.value {
            assert cs[k].end <= c2.begin;
          } else {
            assert c2.end <= cs[k].begin;
          }
        }
        RegionUntouched(buf, cs[k], gs, c2.current, g);
      }
    }
  }

  /** One emitter call keeps every region of the stream up to date. */
  lemma {:induction false} HoldsStep<T>(buf: seq<T>, cs: seq<Cursor>, ops: FloatOps, stores: seq<StoreView>, i: nat, j: nat,
                     stream: Stream, items: ItemsOf<T>)
    requires Position(stores, i, j) && i < |stores| && j < Visible(stores[i])
    requires Holds(buf, cs, ops, stores, i, j, stream, items) && Disjoint(cs)
    ensures InBounds(cs, |buf|)
    ensures var h := stores[i].headers[j];
      var r := EmitInto(buf, cs, BatchOf(stream, h), items(ops, stores[i], h));
      Holds(r.0, r.1, ops, stores, i, j + 1, stream, items)
  {
    var h := stores[i].headers[j];
    var g := items(ops, stores[i], h);
    var batch := BatchOf(stream, h);
    var r := EmitInto(buf, cs, batch, g);
    forall k | 0 <= k < |cs|
      ensures Region(r.0, r.1[k], SoFar(ops, stores, i, j + 1, stream, k, items))
    {
      SoFarStep(ops, stores, i, j, stream, k, items);
      var gs := SoFar(ops, stores, i, j, stream, k, items);
      if batch == Some(k) {
        RegionAfterOwnEmit(buf, cs, g, k, gs);
      } else {
        assert gs + [] == gs;
        RegionAfterOtherEmit(buf, cs, batch, g, k, gs);
      }
    }
  }

  /** The begins and ends of the regions stay where the partition put them. */
  predicate SameRegions(cs: seq<Cursor>, ds: seq<Cursor>) {
    |cs| == |ds| && forall k :: 0 <= k < |cs| ==> ds[k].begin == cs[k].begin && ds[k].end == cs[k].end
  }

  /** The instance part of the writing loop's body: the instance emitter of a valid header's kind, if any. */
  method EmitInstanceOf(
    ops: FloatOps, v: StoreView, h: ShapeHeader,
    transforms: array<InstanceTransform>, colors: array<InstanceColor>, instance: seq<Cursor>)
    returns (next: seq<Cursor>)
    requires IsValidShape(h)
    requires |instance| == InstanceBatchCount && InBounds(instance, transforms.Length) && InBounds(instance, colors.Length)
    modifies transforms, colors
    ensures (transforms[..], next) ==
      EmitInto(old(transforms[..]), instance, BatchOf(InstanceStream, h), TransformItems(ops, v, h))
    ensures (colors[..], next) == EmitInto(old(colors[..]), instance, BatchOf(InstanceStream, h), ColorItems(ops, v, h))
  {
    next := instance;
    var desc := EmitDescOf(h.shape);
    if desc.instanceFunc.Some? {
      var batch := InstanceBatchIndex(h);
      var c := instance[batch];
      var e := desc.instanceFunc.value;
      var data := DataOf(v, h);
      ghost var t0, c0 := transforms[..], colors[..];
      var current := EmitInstance(transforms, colors, c.current, c.end, ops, e, h.color, data);
      next := instance[batch := c.(current := current)];
      if current == c.current {
        assert next == instance;
      } else {
        UpdateIsOverwrite(t0, c.current, InstanceTransformOf(ops, e, data));
        UpdateIsOverwrite(c0, c.current, InstanceColor(h.color));
      }
    }
  }

  /** The filled part of the writing loop's body: a filled triangle's three vertices. */
  method EmitFilledOf(ops: FloatOps, v: StoreView, h: ShapeHeader, filledBuf: array<FilledVertex>, filled: seq<Cursor>)
    returns (next: seq<Cursor>)
    requires IsValidShape(h)
    requires |filled| == ArrayBatchCount && InBounds(filled, filledBuf.Length)
    modifies filledBuf
    ensures (filledBuf[..], next) == EmitInto(old(filledBuf[..]), filled, BatchOf(FilledStream, h), FilledItems(ops, v, h))
  {
    next := filled;
    var desc := EmitDescOf(h.shape);
    if desc.filledVertexFunc.Some? && h.style == StyleFilled {
      var batch := ArrayBatchIndex(h);
      var c := filled[batch];
      var current := EmitFilledTriangleVertices(filledBuf, c.current, c.end, ops, h.color, DataOf(v, h));
      next := filled[batch := c.(current := current)];
      if current == c.current {
        assert next == filled;
      }
    }
  }

  /** The wire part of the writing loop's body: a wire line's or wire triangle's vertices. */
  method EmitWireOf(ops: FloatOps, v: StoreView, h: ShapeHeader, wireBuf: array<WireVertex>, wire: seq<Cursor>)
    returns (next: seq<Cursor>)
    requires IsValidShape(h)
    requires |wire| == ArrayBatchCount && InBounds(wire, wireBuf.Length)
    modifies wireBuf
    ensures (wireBuf[..], next) == EmitInto(old(wireBuf[..]), wire, BatchOf(WireStream, h), WireItems(ops, v, h))
  {
    next := wire;
    var desc := EmitDescOf(h.shape);
    if desc.wireVertexFunc.Some? && h.style == StyleWire {
      var batch := ArrayBatchIndex(h);
      var c := wire[batch];
      var current := CallWireEmitter(desc.wireVertexFunc.value, wireBuf, c.current, c.end, h.color, DataOf(v, h));
      next := wire[batch := c.(current := current)];
      if current == c.current {
        assert next == wire;
      }
    }
  }

  /**
   * The body of the writing loop for one header: a header of invalid shape
   * is skipped; otherwise its instance, filled and wire emitters (those its
   * descriptor has, the vertex ones only for the matching style) are called
   * on the cursor of its batch in each stream.
   */
  method EmitShape(
    ops: FloatOps, v: StoreView, h: ShapeHeader,
    transforms: array<InstanceTransform>, colors: array<InstanceColor>, instance: seq<Cursor>,
    filledBuf: array<FilledVertex>, filled: seq<Cursor>,
    wireBuf: array<WireVertex>, wire: seq<Cursor>)
    returns (nextInstance: seq<Cursor>, nextFilled: seq<Cursor>, nextWire: seq<Cursor>)
    requires |instance| == InstanceBatchCount && InBounds(instance, transforms.Length) && InBounds(instance, colors.Length)
    requires |filled| == ArrayBatchCount && InBounds(filled, filledBuf.Length)
    requires |wire| == ArrayBatchCount && InBounds(wire, wireBuf.Length)
    modifies transforms, colors, filledBuf, wireBuf
    ensures (transforms[..], nextInstance) ==
      EmitInto(old(transforms[..]), instance, BatchOf(InstanceStream, h), TransformItems(ops, v, h))
    ensures (colors[..], nextInstance) ==
      EmitInto(old(colors[..]), instance, BatchOf(InstanceStream, h), ColorItems(ops, v, h))
    ensures (filledBuf[..], nextFilled) ==
      EmitInto(old(filledBuf[..]), filled, BatchOf(FilledStream, h), FilledItems(ops, v, h))
    ensures (wireBuf[..], nextWire) ==
      EmitInto(old(wireBuf[..]), wire, BatchOf(WireStream, h), WireItems(ops, v, h))
  {
    if h.shape >= ShapeCount {
      return instance, filled, wire;
    }
    nextInstance := EmitInstanceOf(ops, v, h, transforms, colors, instance);
    nextFilled := EmitFilledOf(ops, v, h, filledBuf, filled);
    nextWire := EmitWireOf(ops, v, h, wireBuf, wire);
  }

  /** Regions that did not move stay disjoint. */
  lemma {:induction false} SameRegionsKeepDisjoint(cs: seq<Cursor>, ds: seq<Cursor>)
    requires Disjoint(cs) && SameRegions(cs, ds)
    ensures Disjoint(ds)
  {
    forall k1, k2 | 0 <= k1 < k2 < |ds|
      ensures ds[k1].end <= ds[k2].begin
    {
      assert cs[k1].end <= cs[k2].begin;
    }
  }

  /** Replay of a store's last header hands over to the next store. */
  lemma {:induction false} HoldsNextStore<T>(buf: seq<T>, cs: seq<Cursor>, ops: FloatOps, stores: seq<StoreView>, i: nat,
                          stream: Stream, items: ItemsOf<T>)
    requires AllWellFormed(stores) && i < |stores|
    requires Position(stores, i, Visible(stores[i]))
    requires Holds(buf, cs, ops, stores, i, Visible(stores[i]), stream, items)
    ensures Position(stores, i + 1, 0) && Holds(buf, cs, ops, stores, i + 1, 0, stream, items)
  {
    forall k | 0 <= k < |cs|
      ensures Region(buf, cs[k], SoFar(ops, stores, i + 1, 0, stream, k, items))
    {
      SoFarNextStore(ops, stores, i, stream, k, items);
    }
  }

  /** The four output arrays are up to date at a replay position, and the regions of each stream are disjoint. */
  ghost predicate Replayed(
    ops: FloatOps, stores: seq<StoreView>, i: nat, j: nat,
    transforms: seq<InstanceTransform>, colors: seq<InstanceColor>, instance: seq<Cursor>,
    filledBuf: seq<FilledVertex>, filled: seq<Cursor>, wireBuf: seq<WireVertex>, wire: seq<Cursor>)
    requires Position(stores, i, j)
  {
    Holds(transforms, instance, ops, stores, i, j, InstanceStream, TransformItems) &&
    Holds(colors, instance, ops, stores, i, j, InstanceStream, ColorItems) &&
    Holds(filledBuf, filled, ops, stores, i, j, FilledStream, FilledItems) &&
    Holds(wireBuf, wire, ops, stores, i, j, WireStream, WireItems) &&
    Disjoint(instance) && Disjoint(filled) && Disjoint(wire)
  }

  /** The writing loop over the written headers of store `i`. */
  method EmitStore(
    ops: FloatOps, stores: seq<StoreView>, i: nat,
    transforms: array<InstanceTransform>, colors: array<InstanceColor>, instance: seq<Cursor>,
    filledBuf: array<FilledVertex>, filled: seq<Cursor>,
    wireBuf: array<WireVertex>, wire: seq<Cursor>)
    returns (nextInstance: seq<Cursor>, nextFilled: seq<Cursor>, nextWire: seq<Cursor>)
    requires AllWellFormed(stores) && i < |stores|
    requires Replayed(ops, stores, i, 0, transforms[..], colors[..], instance, filledBuf[..], filled, wireBuf[..], wire)
    modifies transforms, colors, filledBuf, wireBuf
    ensures Position(stores, i + 1, 0)
    ensures Replayed(ops, stores, i + 1, 0,
      transforms[..], colors[..], nextInstance, filledBuf[..], nextFilled, wireBuf[..], nextWire)
    ensures SameRegions(instance, nextInstance) && SameRegions(filled, nextFilled) && SameRegions(wire, nextWire)
  {
    var v := stores[i];
    var headerCount := Visible(v);
    nextInstance, nextFilled, nextWire := instance, filled, wire;
    var j := 0;
    while j < headerCount
      invariant j <= headerCount && Position(stores, i, j)
      invariant Replayed(ops, stores, i, j,
        transforms[..], colors[..], nextInstance, filledBuf[..], nextFilled, wireBuf[..], nextWire)
      invariant SameRegions(instance, nextInstance) && SameRegions(filled, nextFilled) && SameRegions(wire, nextWire)
    {
      HoldsStep(transforms[..], nextInstance, ops, stores, i, j, InstanceStream, TransformItems);
      HoldsStep(colors[..], nextInstance, ops, stores, i, j, InstanceStream, ColorItems);
      HoldsStep(filledBuf[..], nextFilled, ops, stores, i, j, FilledStream, FilledItems);
      HoldsStep(wireBuf[..], nextWire, ops, stores, i, j, WireStream, WireItems);
      ghost var before := (nextInstance, nextFilled, nextWire);
      nextInstance, nextFilled, nextWire :=
        EmitShape(ops, v, v.headers[j], transforms, colors, nextInstance, filledBuf, nextFilled, wireBuf, nextWire);
      SameRegionsKeepDisjoint(before.0, nextInstance);
      SameRegionsKeepDisjoint(before.1, nextFilled);
      SameRegionsKeepDisjoint(before.2, nextWire);
      j := j + 1;
    }
    HoldsNextStore(transforms[..], nextInstance, ops, stores, i, InstanceStream, TransformItems);
    HoldsNextStore(colors[..], nextInstance, ops, stores, i, InstanceStream, ColorItems);
    HoldsNextStore(filledBuf[..], nextFilled, ops, stores, i, FilledStream, FilledItems);
    HoldsNextStore(wireBuf[..], nextWire, ops, stores, i, WireStream, WireItems);
  }

  /** The writing loop over all stores. */
  method EmitStores(
    ops: FloatOps, stores: seq<StoreView>,
    transforms: array<InstanceTransform>, colors: array<InstanceColor>, instance: seq<Cursor>,
    filledBuf: array<FilledVertex>, filled: seq<Cursor>,
    wireBuf: array<WireVertex>, wire: seq<Cursor>)
    returns (nextInstance: seq<Cursor>, nextFilled: seq<Cursor>, nextWire: seq<Cursor>)
    requires Position(stores, 0, 0)
    requires Replayed(ops, stores, 0, 0, transforms[..], colors[..], instance, filledBuf[..], filled, wireBuf[..], wire)
    modifies transforms, colors, filledBuf, wireBuf
    ensures Position(stores, |stores|, 0)
    ensures Replayed(ops, stores, |stores|, 0,
      transforms[..], colors[..], nextInstance, filledBuf[..], nextFilled, wireBuf[..], nextWire)
    ensures SameRegions(instance, nextInstance) && SameRegions(filled, nextFilled) && SameRegions(wire, nextWire)
  {
    nextInstance, nextFilled, nextWire := instance, filled, wire;
    var i := 0;
    while i < |stores|
      invariant i <= |stores| && Position(stores, i, 0)
      invariant Replayed(ops, stores, i, 0,
        transforms[..], colors[..], nextInstance, filledBuf[..], nextFilled, wireBuf[..], nextWire)
      invariant SameRegions(instance, nextInstance) && SameRegions(filled, nextFilled) && SameRegions(wire, nextWire)
    {
      nextInstance, nextFilled, nextWire :=
        EmitStore(ops, stores, i, transforms, colors, nextInstance, filledBuf, nextFilled, wireBuf, nextWire);
      i := i + 1;
    }
  }

  // ---------------------------------------------------------------------
  // The draw calls

  /** `imdd_batch_t`: a range of the output buffer drawn with one call. */
  datatype Batch = Batch(offset: nat, count: nat)

  /** The report loop: each batch covers its region from the beginning up to the cursor. */
  method Report(cs: seq<Cursor>) returns (batches: seq<Batch>)
    requires forall k :: 0 <= k < |cs| ==> cs[k].begin <= cs[k].current
    ensures |batches| == |cs|
    ensures forall k :: 0 <= k < |cs| ==> batches[k] == Batch(cs[k].begin, cs[k].current - cs[k].begin)
  {
    batches := [];
    var k := 0;
    while k < |cs|
      invariant k <= |cs| && |batches| == k
      invariant forall i :: 0 <= i < k ==> batches[i] == Batch(cs[i].begin, cs[i].current - cs[i].begin)
    {
      batches := batches + [Batch(cs[k].begin, cs[k].current - cs[k].begin)];
      k := k + 1;
    }
  }

  /**
   * What the compiler leaves for one output array: the batches of the
   * stream, each starting where the partition put it and holding exactly
   * what the stores' headers for that batch placed in its region, in
   * submission order; and the total, the end of the last region.
   */
  ghost predicate Compiled<T>(buf: seq<T>, batches: seq<Batch>, count: nat, cap: nat,
                              ops: FloatOps, stores: seq<StoreView>, stream: Stream, items: ItemsOf<T>)
  {
    AllWellFormed(stores) &&
    var d := Demands(stores, stream);
    |batches| == |d| && count == EndOffset(d, cap, |d|) &&
    forall k :: 0 <= k < |batches| ==>
      BatchHolds(buf, batches[k], EndOffset(d, cap, k), Placed(GatherAll(ops, stores, stream, k, items), Room(d, cap, k)))
  }

  /** A batch starts at `offset` and covers exactly `placed`. */
  ghost predicate BatchHolds<T>(buf: seq<T>, b: Batch, offset: nat, placed: seq<T>) {
    b.offset == offset && b.offset + b.count <= |buf| && buf[b.offset..b.offset + b.count] == placed
  }

  /** Replay finished: every region holds what its batch's groups placed, as `Compiled` states. */
  lemma {:induction false} ReplayedIsCompiled<T>(buf: seq<T>, cs: seq<Cursor>, batches: seq<Batch>, count: nat, cap: nat,
                              ops: FloatOps, stores: seq<StoreView>, stream: Stream, items: ItemsOf<T>)
    requires Position(stores, |stores|, 0) && Holds(buf, cs, ops, stores, |stores|, 0, stream, items)
    requires Partitioned(cs, Demands(stores, stream), cap) && count == EndOffset(Demands(stores, stream), cap, |cs|)
    requires |batches| == |cs| && forall k :: 0 <= k < |cs| ==> batches[k] == Batch(cs[k].begin, cs[k].current - cs[k].begin)
    ensures Compiled(buf, batches, count, cap, ops, stores, stream, items)
  {
    var d := Demands(stores, stream);
    forall k | 0 <= k < |cs|
      ensures BatchHolds(buf, batches[k], EndOffset(d, cap, k), Placed(GatherAll(ops, stores, stream, k, items), Room(d, cap, k)))
    {
      SoFarEnds(ops, stores, stream, k, items);
      assert Region(buf, cs[k], SoFar(ops, stores, |stores|, 0, stream, k, items));
      BatchFromRegion(buf, cs[k], batches[k], GatherAll(ops, stores, stream, k, items), d, cap, k);
    }
  }

  /** The batch reported for a finished region covers what the region holds. */
  lemma {:induction false} BatchFromRegion<T>(buf: seq<T>, c: Cursor, b: Batch, gs: seq<seq<T>>, d: seq<nat>, cap: nat, k: nat)
    requires Region(buf, c, gs) && k < |d|
    requires c.begin == EndOffset(d, cap, k) && c.end == EndOffset(d, cap, k + 1)
    requires b == Batch(c.begin, c.current - c.begin)
    ensures BatchHolds(buf, b, EndOffset(d, cap, k), Placed(gs, Room(d, cap, k)))
  {
    assert c.end - c.begin == Room(d, cap, k);
  }

  /** Replay starts with every cursor at the beginning of its region and nothing placed. */
  lemma {:induction false} FreshHolds<T>(buf: seq<T>, cs: seq<Cursor>, cap: nat, ops: FloatOps, stores: seq<StoreView>,
                      stream: Stream, items: ItemsOf<T>)
    requires AllWellFormed(stores) && cap <= |buf|
    requires Partitioned(cs, Demands(stores, stream), cap)
    requires forall k :: 0 <= k < |cs| ==> cs[k].current == cs[k].begin
    ensures Position(stores, 0, 0) && Holds(buf, cs, ops, stores, 0, 0, stream, items) && Disjoint(cs)
  {
    PartitionIsDisjoint(cs, Demands(stores, stream), cap);
    forall k | 0 <= k < |cs|
      ensures Region(buf, cs[k], SoFar(ops, stores, 0, 0, stream, k, items))
    {
      SoFarEnds(ops, stores, stream, k, items);
    }
  }

  /** The counts the counting phase produced are the demands of the headers. */
  lemma {:induction false} CountsAreDemands(stores: seq<StoreView>, c: Counts)
    requires AllInv(stores) && CountsSized(c)
    requires forall s: Stream, k :: 0 <= k < BatchCount(s) ==> c.Of(s)[k] == Counted(stores, s, k)
    ensures AllWellFormed(stores)
    ensures c.instance == Demands(stores, InstanceStream)
    ensures c.filled == Demands(stores, FilledStream)
    ensures c.wire == Demands(stores, WireStream)
  {
    forall s: Stream, k | 0 <= k < BatchCount(s)
      ensures c.Of(s)[k] == Demand(stores, s, k)
    {
      CountedIsDemand(stores, s, k);
    }
    assert c.instance == c.Of(InstanceStream);
    assert c.filled == c.Of(FilledStream);
    assert c.wire == c.Of(WireStream);
  }

  /** Replay starts on the freshly partitioned arrays. */
  lemma {:induction false} StartReplay(
    ops: FloatOps, stores: seq<StoreView>,
    transforms: seq<InstanceTransform>, colors: seq<InstanceColor>, instance: seq<Cursor>, instanceCapacity: nat,
    filledBuf: seq<FilledVertex>, filled: seq<Cursor>, filledCapacity: nat,
    wireBuf: seq<WireVertex>, wire: seq<Cursor>, wireCapacity: nat)
    requires AllWellFormed(stores)
    requires instanceCapacity <= |transforms| && instanceCapacity <= |colors|
    requires filledCapacity <= |filledBuf| && wireCapacity <= |wireBuf|
    requires Partitioned(instance, Demands(stores, InstanceStream), instanceCapacity)
    requires Partitioned(filled, Demands(stores, FilledStream), filledCapacity)
    requires Partitioned(wire, Demands(stores, WireStream), wireCapacity)
    requires forall k :: 0 <= k < |instance| ==> instance[k].current == instance[k].begin
    requires forall k :: 0 <= k < |filled| ==> filled[k].current == filled[k].begin
    requires forall k :: 0 <= k < |wire| ==> wire[k].current == wire[k].begin
    ensures Position(stores, 0, 0)
    ensures Replayed(ops, stores, 0, 0, transforms, colors, instance, filledBuf, filled, wireBuf, wire)
  {
    FreshHolds(transforms, instance, instanceCapacity, ops, stores, InstanceStream, TransformItems);
    FreshHolds(colors, instance, instanceCapacity, ops, stores, InstanceStream, ColorItems);
    FreshHolds(filledBuf, filled, filledCapacity, ops, stores, FilledStream, FilledItems);
    FreshHolds(wireBuf, wire, wireCapacity, ops, stores, WireStream, WireItems);
  }

  /** Regions that did not move are still the partition's. */
  lemma {:induction false} SameRegionsKeepPartition(cs: seq<Cursor>, ds: seq<Cursor>, counts: seq<nat>, cap: nat)
    requires Partitioned(cs, counts, cap) && SameRegions(cs, ds)
    ensures Partitioned(ds, counts, cap)
  {
  }

  /** `imdd_emit_shapes` leaves each output array compiled once replay is over. */
  lemma {:induction false} FinishReplay(
    ops: FloatOps, stores: seq<StoreView>,
    transforms: seq<InstanceTransform>, colors: seq<InstanceColor>, instance: seq<Cursor>,
    instanceCapacity: nat, instanceBatches: seq<Batch>, instanceCount: nat,
    filledBuf: seq<FilledVertex>, filled: seq<Cursor>, filledCapacity: nat, filledBatches: seq<Batch>, filledCount: nat,
    wireBuf: seq<WireVertex>, wire: seq<Cursor>, wireCapacity: nat, wireBatches: seq<Batch>, wireCount: nat)
    requires Position(stores, |stores|, 0)
    requires Replayed(ops, stores, |stores|, 0, transforms, colors, instance, filledBuf, filled, wireBuf, wire)
    requires Partitioned(instance, Demands(stores, InstanceStream), instanceCapacity)
    requires Partitioned(filled, Demands(stores, FilledStream), filledCapacity)
    requires Partitioned(wire, Demands(stores, WireStream), wireCapacity)
    requires instanceCount == EndOffset(Demands(stores, InstanceStream), instanceCapacity, InstanceBatchCount)
    requires filledCount == EndOffset(Demands(stores, FilledStream), filledCapacity, ArrayBatchCount)
    requires wireCount == EndOffset(Demands(stores, WireStream), wireCapacity, ArrayBatchCount)
    requires |instanceBatches| == |instance| &&
      forall k :: 0 <= k < |instance| ==> instanceBatches[k] == Batch(instance[k].begin, instance[k].current - instance[k].begin)
    requires |filledBatches| == |filled| &&
      forall k :: 0 <= k < |filled| ==> filledBatches[k] == Batch(filled[k].begin, filled[k].current - filled[k].begin)
    requires |wireBatches| == |wire| &&
      forall k :: 0 <= k < |wire| ==> wireBatches[k] == Batch(wire[k].begin, wire[k].current - wire[k].begin)
    ensures Compiled(transforms, instanceBatches, instanceCount, instanceCapacity, ops, stores, InstanceStream, TransformItems)
    ensures Compiled(colors, instanceBatches, instanceCount, instanceCapacity, ops, stores, InstanceStream, ColorItems)
    ensures Compiled(filledBuf, filledBatches, filledCount, filledCapacity, ops, stores, FilledStream, FilledItems)
    ensures Compiled(wireBuf, wireBatches, wireCount, wireCapacity, ops, stores, WireStream, WireItems)
  {
    ReplayedIsCompiled(transforms, instance, instanceBatches, instanceCount, instanceCapacity,
      ops, stores, InstanceStream, TransformItems);
    ReplayedIsCompiled(colors, instance, instanceBatches, instanceCount, instanceCapacity,
      ops, stores, InstanceStream, ColorItems);
    ReplayedIsCompiled(filledBuf, filled, filledBatches, filledCount, filledCapacity,
      ops, stores, FilledStream, FilledItems);
    ReplayedIsCompiled(wireBuf, wire, wireBatches, wireCount, wireCapacity,
      ops, stores, WireStream, WireItems);
  }

  /**
   * The writing and report phases of `imdd_emit_shapes`, on cursors the
   * partition loops set up: replay every written header of every store into
   * the region of its batch, then report the batches.
   */
  method ReplayAndReport(
    ops: FloatOps, stores: seq<StoreView>,
    transforms: array<InstanceTransform>, colors: array<InstanceColor>, instanceCapacity: nat, instance: seq<Cursor>,
    filledBuf: array<FilledVertex>, filledCapacity: nat, filled: seq<Cursor>,
    wireBuf: array<WireVertex>, wireCapacity: nat, wire: seq<Cursor>)
    returns (instanceBatches: seq<Batch>, filledBatches: seq<Batch>, wireBatches: seq<Batch>)
    requires AllWellFormed(stores)
    requires instanceCapacity <= transforms.Length && instanceCapacity <= colors.Length
    requires filledCapacity <= filledBuf.Length && wireCapacity <= wireBuf.Length
    requires Partitioned(instance, Demands(stores, InstanceStream), instanceCapacity)
    requires Partitioned(filled, Demands(stores, FilledStream), filledCapacity)
    requires Partitioned(wire, Demands(stores, WireStream), wireCapacity)
    requires forall k :: 0 <= k < |instance| ==> instance[k].current == instance[k].begin
    requires forall k :: 0 <= k < |filled| ==> filled[k].current == filled[k].begin
    requires forall k :: 0 <= k < |wire| ==> wire[k].current == wire[k].begin
    modifies transforms, colors, filledBuf, wireBuf
    ensures var instanceCount := EndOffset(Demands(stores, InstanceStream), instanceCapacity, InstanceBatchCount);
      Compiled(transforms[..], instanceBatches, instanceCount, instanceCapacity, ops, stores, InstanceStream, TransformItems) &&
      Compiled(colors[..], instanceBatches, instanceCount, instanceCapacity, ops, stores, InstanceStream, ColorItems)
    ensures Compiled(filledBuf[..], filledBatches, EndOffset(Demands(stores, FilledStream), filledCapacity, ArrayBatchCount),
      filledCapacity, ops, stores, FilledStream, FilledItems)
    ensures Compiled(wireBuf[..], wireBatches, EndOffset(Demands(stores, WireStream), wireCapacity, ArrayBatchCount),
      wireCapacity, ops, stores, WireStream, WireItems)
  {
    StartReplay(ops, stores, transforms[..], colors[..], instance, instanceCapacity,
      filledBuf[..], filled, filledCapacity, wireBuf[..], wire, wireCapacity);
    var written, writtenFilled, writtenWire :=
      EmitStores(ops, stores, transforms, colors, instance, filledBuf, filled, wireBuf, wire);
    SameRegionsKeepPartition(instance, written, Demands(stores, InstanceStream), instanceCapacity);
    SameRegionsKeepPartition(filled, writtenFilled, Demands(stores, FilledStream), filledCapacity);
    SameRegionsKeepPartition(wire, writtenWire, Demands(stores, WireStream), wireCapacity);

    instanceBatches := Report(written);
    filledBatches := Report(writtenFilled);
    wireBatches := Report(writtenWire);
    FinishReplay(ops, stores,
      transforms[..], colors[..], written, instanceCapacity, instanceBatches,
      EndOffset(Demands(stores, InstanceStream), instanceCapacity, InstanceBatchCount),
      filledBuf[..], writtenFilled, filledCapacity, filledBatches,
      EndOffset(Demands(stores, FilledStream), filledCapacity, ArrayBatchCount),
      wireBuf[..], writtenWire, wireCapacity, wireBatches,
      EndOffset(Demands(stores, WireStream), wireCapacity, ArrayBatchCount));
  }

  /**
   * `imdd_emit_shapes`: count every batch's demand from the stores'
   * histograms, cut each output array into consecutive regions of those
   * sizes clamped to its capacity, replay every written header of every
   * store into the region of its batch, and report the batches and totals.
   */
  method EmitShapes(
    ops: FloatOps, stores: seq<StoreView>,
    transforms: array<InstanceTransform>, colors: array<InstanceColor>, instanceCapacity: nat,
    filledBuf: array<FilledVertex>, filledCapacity: nat,
    wireBuf: array<WireVertex>, wireCapacity: nat)
    returns (instanceBatches: seq<Batch>, instanceCount: nat,
             filledBatches: seq<Batch>, filledCount: nat,
             wireBatches: seq<Batch>, wireCount: nat)
    requires AllInv(stores)
    requires instanceCapacity <= transforms.Length && instanceCapacity <= colors.Length
    requires filledCapacity <= filledBuf.Length && wireCapacity <= wireBuf.Length
    modifies transforms, colors, filledBuf, wireBuf
    ensures Compiled(transforms[..], instanceBatches, instanceCount, instanceCapacity, ops, stores, InstanceStream, TransformItems)
    ensures Compiled(colors[..], instanceBatches, instanceCount, instanceCapacity, ops, stores, InstanceStream, ColorItems)
    ensures Compiled(filledBuf[..], filledBatches, filledCount, filledCapacity, ops, stores, FilledStream, FilledItems)
    ensures Compiled(wireBuf[..], wireBatches, wireCount, wireCapacity, ops, stores, WireStream, WireItems)
  {
    var counts := CountBatches(stores);
    CountsAreDemands(stores, counts);

    var instance, filled, wire;
    instance, instanceCount := Partition(counts.instance, instanceCapacity);
    filled, filledCount := Partition(counts.filled, filledCapacity);
    wire, wireCount := Partition(counts.wire, wireCapacity);

    instanceBatches, filledBatches, wireBatches := ReplayAndReport(ops, stores,
      transforms, colors, instanceCapacity, instance, filledBuf, filledCapacity, filled,
      wireBuf, wireCapacity, wire);
  }

  // ---------------------------------------------------------------------
  // What the compiled batches guarantee

  /** A compiled batch starts its region and stays inside it. */
  lemma {:induction false} BatchInItsRegion<T>(buf: seq<T>, batches: seq<Batch>, count: nat, cap: nat,
                            ops: FloatOps, stores: seq<StoreView>, stream: Stream, items: ItemsOf<T>, k: nat)
    requires Compiled(buf, batches, count, cap, ops, stores, stream, items) && k < |batches|
    ensures var d := Demands(stores, stream);
      batches[k].offset == EndOffset(d, cap, k) &&
      batches[k].offset + batches[k].count <= EndOffset(d, cap, k + 1) &&
      batches[k].count <= d[k]
  {
    var d := Demands(stores, stream);
    assert BatchHolds(buf, batches[k], EndOffset(d, cap, k), Placed(GatherAll(ops, stores, stream, k, items), Room(d, cap, k)));
  }

  /**
   * The batches tile the output in batch order: each lies inside its own
   * region, after the previous one, takes no more than its demand, and the
   * total never passes the capacity.
   */
  lemma {:induction false} BatchesTileTheOutput<T>(buf: seq<T>, batches: seq<Batch>, count: nat, cap: nat,
                                ops: FloatOps, stores: seq<StoreView>, stream: Stream, items: ItemsOf<T>)
    requires Compiled(buf, batches, count, cap, ops, stores, stream, items)
    ensures count <= cap
    ensures forall k :: 0 <= k < |batches| ==> batches[k].count <= Demand(stores, stream, k)
    ensures forall k :: 0 <= k < |batches| ==> batches[k].offset + batches[k].count <= count
    ensures forall k :: 0 <= k && k + 1 < |batches| ==> batches[k].offset + batches[k].count <= batches[k + 1].offset
  {
    var d := Demands(stores, stream);
    forall k | 0 <= k < |batches|
      ensures batches[k].count <= Demand(stores, stream, k)
      ensures batches[k].offset + batches[k].count <= count
      ensures k + 1 < |batches| ==> batches[k].offset + batches[k].count <= batches[k + 1].offset
    {
      BatchInItsRegion(buf, batches, count, cap, ops, stores, stream, items, k);
      EndOffsetMonotone(d, cap, k + 1, |d|);
      if k + 1 < |batches| {
        BatchInItsRegion(buf, batches, count, cap, ops, stores, stream, items, k + 1);
      }
    }
  }

  /**
   * When the demands of a stream fit its capacity nothing is dropped: each
   * batch is exactly its demand, holding every unit its headers produce in
   * submission order, and the total is the sum of the demands.
   */
  lemma {:induction false} EverythingDrawnWhenItFits<T>(buf: seq<T>, batches: seq<Batch>, count: nat, cap: nat,
                                     ops: FloatOps, stores: seq<StoreView>, stream: Stream, items: ItemsOf<T>)
    requires Compiled(buf, batches, count, cap, ops, stores, stream, items)
    requires SizedByDesc(ops, stream, items)
    requires Sum(Demands(stores, stream), BatchCount(stream)) <= cap
    ensures count == Sum(Demands(stores, stream), BatchCount(stream))
    ensures forall k :: 0 <= k < |batches| ==>
      batches[k].count == Demand(stores, stream, k) &&
      buf[batches[k].offset..batches[k].offset + batches[k].count] == Flatten(GatherAll(ops, stores, stream, k, items))
  {
    var d := Demands(stores, stream);
    EndOffsetIsClampedSum(d, cap, |d|);
    forall k | 0 <= k < |batches|
      ensures batches[k].count == Demand(stores, stream, k)
      ensures buf[batches[k].offset..batches[k].offset + batches[k].count] == Flatten(GatherAll(ops, stores, stream, k, items))
    {
      var gs := GatherAll(ops, stores, stream, k, items);
      assert BatchHolds(buf, batches[k], EndOffset(d, cap, k), Placed(gs, Room(d, cap, k)));
      RoomIsCountWhenAllFit(d, cap, k);
      GatherAllTotal(ops, stores, stream, k, items);
      PlacedAllWhenRoom(gs, Room(d, cap, k));
    }
  }

  /** Every header sends a single instance to its instance batch. */
  lemma {:induction false} GatherAllSingletons<T>(ops: FloatOps, stores: seq<StoreView>, k: nat, items: ItemsOf<T>)
    requires AllWellFormed(stores) && SizedByDesc(ops, InstanceStream, items)
    ensures forall i :: 0 <= i < |GatherAll(ops, stores, InstanceStream, k, items)| ==>
      |GatherAll(ops, stores, InstanceStream, k, items)[i]| == 1
  {
    if |stores| > 0 {
      var v := stores[|stores| - 1];
      GatherAllSingletons(ops, stores[..|stores| - 1], k, items);
      GatherSingletons(ops, v, Written(v), k, items);
    }
  }

  lemma {:induction false} GatherSingletons<T>(ops: FloatOps, v: StoreView, hs: seq<ShapeHeader>, k: nat, items: ItemsOf<T>)
    requires SizedByDesc(ops, InstanceStream, items)
    ensures forall i :: 0 <= i < |Gather(ops, v, hs, InstanceStream, k, items)| ==>
      |Gather(ops, v, hs, InstanceStream, k, items)[i]| == 1
  {
    if |hs| > 0 {
      GatherSingletons(ops, v, hs[..|hs| - 1], k, items);
    }
  }

  /**
   * An instance batch is cut off exactly at the end of its region: it holds
   * as many instances as were submitted for it, or as its region has room
   * for, whichever is smaller.
   */
  lemma {:induction false} InstancesTruncateAtRegionEnd(buf: seq<InstanceTransform>, batches: seq<Batch>, count: nat, cap: nat,
                                     ops: FloatOps, stores: seq<StoreView>)
    requires Compiled(buf, batches, count, cap, ops, stores, InstanceStream, TransformItems)
    ensures forall k :: 0 <= k < |batches| ==>
      var room := Room(Demands(stores, InstanceStream), cap, k);
      batches[k].count == if Demand(stores, InstanceStream, k) <= room then Demand(stores, InstanceStream, k) else room
  {
    var d := Demands(stores, InstanceStream);
    EmittersMatchCounts(ops);
    forall k | 0 <= k < |batches|
      ensures batches[k].count == if d[k] <= Room(d, cap, k) then d[k] else Room(d, cap, k)
    {
      var gs := GatherAll(ops, stores, InstanceStream, k, TransformItems);
      assert BatchHolds(buf, batches[k], EndOffset(d, cap, k), Placed(gs, Room(d, cap, k)));
      GatherAllSingletons(ops, stores, k, TransformItems);
      PlacedSingletons(gs, Room(d, cap, k));
      GatherAllTotal(ops, stores, InstanceStream, k, TransformItems);
      TotalOfSingletons(gs);
    }
  }

  lemma {:induction false} TotalOfSingletons<T>(gs: seq<seq<T>>)
    requires forall i :: 0 <= i < |gs| ==> |gs[i]| == 1
    ensures Total(gs) == |gs|
  {
    if |gs| > 0 {
      TotalOfSingletons(gs[..|gs| - 1]);
    }
  }

  // ---------------------------------------------------------------------
  // The writing loop's bound

  /**
   * The bound of the writing loop as the source has it (imdd_draw_util.h:873):
   * the header counter, which keeps counting the calls made on a full store.
   */
  function WriteBoundAsWritten(v: StoreView): nat {
    v.headerCount
  }

  /**
   * Three submissions to a store with two header slots: the third is turned
   * away, but the counter reaches 3, so the writing loop as written reads a
   * third header past the end of the two-slot header array.  The corrected
   * bound (`Written`) stops at the two headers that were stored, the same
   * ones the histogram counts.
   */
  lemma {:induction false} FullStoreOverrunsWriteLoop()
    ensures var r1 := ReserveSpec(SmallStore(), ShapeLine, StyleWire, ZmodeTest, 0xFF00_0000, 2);
      var r2 := ReserveSpec(r1.view, ShapeSphere, StyleFilled, ZmodeTest, 0xFF00_0000, 1);
      var r3 := ReserveSpec(r2.view, ShapeSphere, StyleFilled, ZmodeTest, 0xFF00_0000, 1);
      Inv(r3.view) && r3.data == None &&
      WriteBoundAsWritten(r3.view) == 3 && |r3.view.headers| == 2 && |Written(r3.view)| == 2
  {
    var r1 := ReserveSpec(SmallStore(), ShapeLine, StyleWire, ZmodeTest, 0xFF00_0000, 2);
    ReservePreservesInv(SmallStore(), ShapeLine, StyleWire, ZmodeTest, 0xFF00_0000, 2);
    var r2 := ReserveSpec(r1.view, ShapeSphere, StyleFilled, ZmodeTest, 0xFF00_0000, 1);
    ReservePreservesInv(r1.view, ShapeSphere, StyleFilled, ZmodeTest, 0xFF00_0000, 1);
    ReservePreservesInv(r2.view, ShapeSphere, StyleFilled, ZmodeTest, 0xFF00_0000, 1);
  }
}
