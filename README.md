# imdd — a verified model of the shape store and the batch compiler

imdd ("immediate mode debug draw") is a small C library. Threads call
`imdd_line`, `imdd_aabb`, `imdd_sphere` and the other submission helpers. Each
helper reserves one header slot and a run of 16-byte quads in a fixed-capacity
*shape store*, then fills that run in. Once per frame `imdd_emit_shapes` turns
one or more stores into GPU-ready output in three steps:

- It counts what every output batch needs, from the per-bucket histogram the
  stores kept.
- It cuts each of the three output buffers (instances, filled vertices, wire
  vertices) into one contiguous region per batch, clamped to the buffer's
  capacity.
- It replays every stored header through an all-or-nothing emitter into its
  batch's region, then reports each batch's offset and count.

Instanced kinds are drawn with template meshes. Eight writers produce their
index lists, and a layout packs the meshes of one style into shared buffers.

The model, module by module:

- `Lanes` (lanes.dfy): the `imdd_v4` four-lane vector and its lane-structural
  operations (init, load/store, swizzle, set-lane, transpose, sign flip).
  A float lane is kept as its 32-bit pattern. Float arithmetic comes in as a
  `FloatOps` parameter and is never interpreted.
- `Header` (header.dfy): the enumerations and the packed shape header, i.e.
  the bit-fields, the bucket index and the blend derived from the colour.
- `Store` (store.dfy): how `imdd_init` carves the block, the store as a class
  (`ShapeStore`) with `Init`, `Reset` and `Reserve`, a value view of it, and
  the invariant that the histogram counts the stored valid headers.
- `Submit` (submit.dfy): the submission helpers, down to the frustum's six
  triangles or eight lines.
- `Meshes` (meshes.dfy): the vertex/index count table, the index part of
  each of the eight mesh writers, and the mesh layout.
- `Emit` (emit.dfy): the shape-to-mesh table, the emit descriptor table, the
  batch indices, routing, and the emitters over cursors.
- `Compile` (compile.dfy): `imdd_emit_shapes`, with its counting,
  partitioning, replay and reporting steps.
- `Buffers`, `Wrappers` (wrappers.dfy): `Option` and a sequence-overwrite
  helper.

The header bit-fields are laid out least significant bit first:

| bits | field |
|---|---|
| 0 | style |
| 1 | zmode |
| 2 | blend |
| 3..7 | shape |
| 8..31 | data offset |

ISO/IEC 9899:2011, section 6.7.2.1, leaves this order to the implementation;
this model assumes it. Under it, the bucket index is
`style | zmode << 1 | blend << 2 | shape << 3`.

## Model

| member | source | states |
|---|---|---|
| Lanes.PunRoundTrip | imdd_simd.h:3-17 | `imdd_asfloat` and `imdd_asuint` are mutually inverse, and a float is determined by its bit pattern |
| Lanes.LanesDetermineVector | imdd_simd_fallback.h:7-9 | a vector is determined by its four lanes |
| Lanes.Init4f | imdd_simd_fallback.h:11-20 | the four arguments land in lanes x, y, z, w in that order |
| Lanes.Init3f | imdd_simd_fallback.h:21-30 | x, y, z land in lanes 0..2 and lane w is 0.0 |
| Lanes.Init1f | imdd_simd_fallback.h:31-40 | the one argument lands in all four lanes |
| Lanes.ConstZero | imdd_simd_fallback.h:42 | every lane is 0.0 |
| Lanes.Load3f | imdd_simd_fallback.h:45-49 | lanes 0..2 are `p[0..2]` and lane w is 0.0 |
| Lanes.Stored3f | imdd_simd_fallback.h:51-57 | storing writes lanes x, y, z to `p[0..2]` and leaves every other element alone |
| Lanes.Store3f | imdd_simd_fallback.h:51-57 | the array after the store is `Stored3f` of the array before |
| Lanes.StoreOfLoadIsIdentity | imdd_simd_fallback.h:45-57 | storing what was loaded from `p` leaves `p` unchanged |
| Lanes.SwizXXXX | imdd_simd_fallback.h:59 | lane x is copied into all four lanes |
| Lanes.SwizYYYY | imdd_simd_fallback.h:60 | lane y is copied into all four lanes |
| Lanes.SwizZZZZ | imdd_simd_fallback.h:61 | lane z is copied into all four lanes |
| Lanes.SwizWWWW | imdd_simd_fallback.h:62 | lane w is copied into all four lanes |
| Lanes.SetX | imdd_simd_fallback.h:75 | lane x comes from `b`, the other three from `a` |
| Lanes.SetY | imdd_simd_fallback.h:76 | lane y comes from `b`, the other three from `a` |
| Lanes.SetZ | imdd_simd_fallback.h:77 | lane z comes from `b`, the other three from `a` |
| Lanes.SetW | imdd_simd_fallback.h:78 | lane w comes from `b`, the other three from `a` |
| Lanes.TransposeInPlace | imdd_simd_fallback.h:64-73 | lane j of row i becomes lane i of row j for rows 0..2, and row 3 is unchanged |
| Lanes.FlipSign | imdd_simd_fallback.h:84 | only the sign bit changes, and it becomes the XOR of both sign bits |
| Lanes.FlipSignTwice | imdd_simd_fallback.h:80-89 | flipping twice by the same sign gives back the input |
| Lanes.FlipSignByPositive | imdd_simd_fallback.h:80-89 | a clear sign bit in `b` leaves `a` unchanged |
| Lanes.MulSign | imdd_simd_fallback.h:80-89 | every lane is sign-flipped by the same lane of `b` |
| Lanes.MulSignInvolution | imdd_simd_fallback.h:80-89 | `mul_sign(mul_sign(a, b), b) == a` |
| Lanes.MulSignByPositive | imdd_simd_fallback.h:80-89 | a `b` with all sign bits clear leaves `a` unchanged |
| Header.BlendFromColor | imdd.h:375 | blend is OPAQUE exactly when the top byte of the colour is 0xFF, and ALPHA otherwise |
| Header.BlendOfTestColors | imdd.h:375 | a 0xFF alpha byte gives OPAQUE and 0x7F gives ALPHA, whatever the RGB |
| Header.Truncate24 | imdd_store.h:15 | storing in the 24-bit field keeps an offset exactly when it is below 2^24 |
| Header.MakeHeader | imdd.h:372-378 | the header keeps style, zmode, shape and colour, derives blend from the colour, and keeps an offset below 2^24 |
| Header.BucketIndex | imdd_store.h:9-14 | the bucket is below 256, and below 64 exactly when the shape is valid |
| Header.BucketRoundTrip | imdd_store.h:9-14 | decoding a bucket and re-encoding it gives the same bucket |
| Header.HeaderRoundTrip | imdd_store.h:9-14 | encoding a header and decoding it gives back style, zmode, blend and shape |
| Header.BucketDeterminesClass | imdd_store.h:9-14 | two headers share a bucket exactly when style, zmode, blend and shape all agree |
| Header.PackedWord | imdd_store.h:10-15 | the first header word fits 32 bits and its low byte is the bucket |
| Header.PackRoundTrip | imdd_store.h:10-17 | unpacking the packed word (plus the colour word) gives back the header |
| Header.OffsetRoundTrip | imdd.h:377 | a stored offset reads back equal exactly when it is below 2^24 |
| Header.QuadCount | imdd.h:65-208 | every kind reserves between one and three quads |
| Store.RoundUp16 | imdd.h:314-315 | the pool start is the first multiple of 16 at or after the header array's end |
| Store.LayoutFitsBlock | imdd.h:299-317 | headers follow the store record and take an eighth of the rest; the pool is 16-aligned and follows them; both lie inside the block whenever a header fits |
| Store.HeaderCapacityOf | imdd.h:310 | header capacity is (bytes after the record) / 8 / 8 |
| Store.PoolStartsInsideBlock | imdd.h:311-315 | when a header fits, the aligned pool starts inside the block |
| Store.PoolInsideBlock | imdd.h:314-317 | when a header fits, the whole pool ends inside the block |
| Store.LayoutOf | imdd.h:299-317 | the layout used is the computed one with the pool capped at 2^24 quads, and it differs only when the computed pool is larger |
| Store.LayoutOfFitsBlock | imdd.h:299-317 | the capped layout still lies inside the block |
| Store.LargeBlockOutgrowsOffsetField | imdd.h:317 | a 512 MiB block gives a pool of more than 2^24 quads as computed, and exactly 2^24 once capped |
| Store.Visible | imdd.h:357-360 | the stored headers are `min(header_count, header_capacity)`, and this equals the counter exactly when the counter has not passed the capacity |
| Store.Histogram | imdd.h:381-385 | the histogram has one entry per bucket |
| Store.HistogramAppend | imdd.h:381-385 | storing one header bumps its bucket by one when its shape is valid, and changes nothing otherwise |
| Store.HistogramOnlyValidBuckets | imdd.h:382 | buckets whose shape code is 8..31 always count zero |
| Store.ZeroBuckets | imdd.h:323-325 | every bucket count is zero |
| Store.Empty | imdd.h:319-328 | a freshly carved store keeps the invariant and holds no headers |
| Store.ResetEmptiesStore | imdd.h:332-340 | reset zeroes both counters and every bucket, keeps the invariant, and leaves capacities and storage unchanged |
| Store.ReserveAsWritten | imdd.h:362-369 | as written, a run is accepted exactly when its start is below the pool capacity |
| Store.ReserveSpec | imdd.h:342-386 | every call advances the header counter by one. Past capacity nothing else changes. Otherwise: the data counter advances by `qw`; the run is handed out at the old data counter exactly when it starts inside the pool, as the source tests, and also ends by the pool's end; the header keeps style, zmode, colour and derived blend, the truncated offset, and the shape, or the sentinel when the run was refused; no other slot changes; exactly the header's bucket grows by one, and only for an accepted run |
| Store.ReservePreservesInv | imdd.h:357-385 | reserve keeps the histogram equal to the bucket counts of the stored valid headers |
| Store.AcceptedOffsetIsStored | imdd.h:362-377 | an accepted run lies inside the pool, its offset is what the header records, and the header's shape is valid |
| Store.StartOnlyCheckOverrunsPool | imdd.h:362-369 | as written, a 2-quad run is accepted at offset 3 of a 4-quad pool, and the corrected check refuses it and stores the sentinel; both refuse a zero-quad run at offset == capacity |
| Store.OversizedPoolAliasesOffsets | imdd.h:377 | in a pool over 2^24 quads, a run accepted at offset 2^24 is recorded as offset 0 |
| Store.ReserveAll | imdd.h:342-386 | a sequence of reserves never changes the capacities and answers each request |
| Store.ReserveAllStep | imdd.h:342-386 | the i-th answer and header are what one reserve gives on the state left by the first i requests |
| Store.ReserveAllCounters | imdd.h:357 | n reserves advance the header counter by exactly n |
| Store.ReserveAllFits | imdd.h:357-362 | when every request finds a header slot, n reserves advance the header counter by n and the data counter by the sum of the runs, handed out or not |
| Store.RequestFits | imdd.h:357-363 | when everything fits (every run starts inside the pool and ends by its end), request i finds its slot, and its run passes the reserve's test |
| Store.SequentialReservesAreConsecutive | imdd.h:357-378 | when everything fits, request i gets slot `count + i` and the run at the sum of the earlier runs, and its header records its request |
| Store.SequentialRunsAreDisjoint | imdd.h:362 | when everything fits, earlier runs end before later runs start |
| Store.ShapeStore.Init | imdd.h:299-330 | the store starts valid and empty, with all buckets zero and the capacities of the (capped) layout |
| Store.ShapeStore.Reset | imdd.h:332-340 | the new state is the old one with both counters and all buckets zeroed |
| Store.ShapeStore.Reserve | imdd.h:342-386 | the new state and the returned run are exactly `ReserveSpec` of the old state |
| Store.ShapeStore.WriteQuads | imdd.h:82-85 | writing quads through a returned run changes only that run of the pool |
| Compile.RefusedReserveIsNeverDrawn | imdd.h:362-385 | a reserve refused for want of data stores the sentinel shape, which reads back from the packed word, is routed to no batch of any stream, and adds nothing to any batch's demand |
| Store.ReserveInto | imdd.h:351-354 | a null store makes reserve a no-op; otherwise it is `ReserveSpec` |
| Submit.SubmitWritesOnlyItsRun | imdd.h:73-85 | a submission reserves as `ReserveSpec` does, copies its quads into the returned run, and writes nothing when no run came back |
| Submit.ReserveAndFill | imdd.h:98-111 | the store after reserving and filling is `SubmitSpec` of the one before |
| Submit.Line | imdd.h:65-86 | a line is a WIRE line submission of its two end points |
| Submit.Triangle | imdd.h:88-112 | a triangle submits its three corners |
| Submit.Aabb | imdd.h:150-172 | a box submits its min and max corners |
| Submit.Sphere | imdd.h:188-208 | a sphere submits its one centre-radius quad |
| Submit.ShapeQuadsAreColumns | imdd.h:136-146 | quad i holds lane i of the sign-flipped x axis, the y axis, the z axis and the centre |
| Submit.Shape | imdd.h:114-148 | a framed shape submits the three transposed frame quads |
| Submit.Obb | imdd.h:174-186 | an OBB is `Shape` with kind OBB |
| Submit.Ellipsoid | imdd.h:210-222 | an ellipsoid is `Shape` with kind ELLIPSOID |
| Submit.Cone | imdd.h:224-236 | a cone is `Shape` with kind CONE |
| Submit.Cylinder | imdd.h:238-250 | a cylinder is `Shape` with kind CYLINDER |
| Submit.HelpersReserveQuadCount | imdd.h:65-208 | each helper reserves its kind's quad count: 2 for a line and a box, 3 for a triangle and the framed kinds, 1 for a sphere |
| Submit.FrustumPiecesOfKind | imdd.h:276-292 | the side and far-face pieces are FILLED 3-quad triangles, and the edge pieces are WIRE 2-quad lines, all in the frustum's zmode and colour |
| Submit.FrustumSubmissionsOfKind | imdd.h:276-292 | a frustum is exactly 6 FILLED triangles or exactly 8 WIRE lines, in its zmode and colour |
| Submit.SubmitFrustumSides | imdd.h:277-280 | the store after the four side triangles is `SubmitAll` of them in source order |
| Submit.SubmitFrustumFarFace | imdd.h:281-282 | the store after the two far-face triangles is `SubmitAll` of them |
| Submit.SubmitFrustumApexLines | imdd.h:284-287 | the store after the four apex lines is `SubmitAll` of them |
| Submit.SubmitFrustumFarLines | imdd.h:288-291 | the store after the four far-edge lines is `SubmitAll` of them |
| Submit.Frustum | imdd.h:252-293 | the store after a frustum is `SubmitAll` of its submissions, in source order |
| Meshes.U16 | imdd_draw_util.h:99-105 | the 16-bit cast keeps any index below 2^16 |
| Meshes.NextSegment | imdd_draw_util.h:190 | the next segment wraps around modulo the segment count |
| Meshes.CapFanWithin | imdd_draw_util.h:222-230 | the cap fan only names the ring and its centre vertex |
| Meshes.WriteCapFan | imdd_draw_util.h:222-230 | the loop emits exactly the cap fan |
| Meshes.FilledBoxFacesWithin | imdd_draw_util.h:97-106 | the box faces only name the box's 4 vertices per face |
| Meshes.WriteFilledBox | imdd_draw_util.h:72-108 | the loop emits exactly the six faces' triangles |
| Meshes.FilledSphereRowWithin | imdd_draw_util.h:146-157 | one row of cells only names the row's vertices and the ones above |
| Meshes.FilledSphereRowsWithin | imdd_draw_util.h:144-157 | one face's triangles stay inside that face's 49 vertices |
| Meshes.FilledSphereFacesWithin | imdd_draw_util.h:115-158 | n faces stay inside their 49·n vertices |
| Meshes.WriteFilledSphereRow | imdd_draw_util.h:146-157 | the inner loop emits exactly one row's cells |
| Meshes.WriteFilledSphereFace | imdd_draw_util.h:145-158 | the nested loop emits exactly one face's rows |
| Meshes.WriteFilledSphere | imdd_draw_util.h:111-160 | the face loop emits exactly the six faces |
| Meshes.ConeSidesWithin | imdd_draw_util.h:187-199 | the cone sides only name the 36 side vertices |
| Meshes.FilledConeIndices | imdd_draw_util.h:162-231 | the filled cone has `IMDD_FILLED_CONE_INDEX_COUNT` indices |
| Meshes.FilledConeWithin | imdd_draw_util.h:162-231 | the filled cone stays inside its 55 vertices |
| Meshes.WriteFilledCone | imdd_draw_util.h:162-231 | the two loops emit exactly the sides, then the cap |
| Meshes.CylinderSidesWithin | imdd_draw_util.h:257-269 | the cylinder sides only name the 36 side vertices |
| Meshes.CylinderCapsWithin | imdd_draw_util.h:273-305 | both caps stay below the running vertex offset |
| Meshes.FilledCylinderIndices | imdd_draw_util.h:233-306 | the filled cylinder has `IMDD_FILLED_CYLINDER_INDEX_COUNT` indices |
| Meshes.FilledCylinderWithin | imdd_draw_util.h:233-306 | the filled cylinder stays inside its 74 vertices |
| Meshes.WriteFilledCylinder | imdd_draw_util.h:233-306 | the loops emit exactly the sides, then both caps |
| Meshes.WireBoxLines | imdd_draw_util.h:309-338 | the wire box has 24 indices |
| Meshes.WireBoxLinesWithin | imdd_draw_util.h:309-338 | the wire box only names its 8 vertices |
| Meshes.WriteWireBox | imdd_draw_util.h:335-337 | the loop emits exactly the offset edge table |
| Meshes.WireSphereCell | imdd_draw_util.h:374-387 | a cell gives a right line unless in the last column, and a down line unless in the last row |
| Meshes.WireSphereCellWithin | imdd_draw_util.h:374-387 | a cell's lines stay inside its row and the next |
| Meshes.WireSphereRow | imdd_draw_util.h:374-387 | a row's line count, by column and by whether it is the last row |
| Meshes.WireSphereRowWithin | imdd_draw_util.h:373-388 | a row's lines stay inside its row and the next |
| Meshes.WireSphereRows | imdd_draw_util.h:372-388 | the rows' line count (168 per face) |
| Meshes.WireSphereRowsWithin | imdd_draw_util.h:372-388 | one face's lines stay inside that face's 49 vertices |
| Meshes.WireSphereFaces | imdd_draw_util.h:344-389 | n faces give 168·n indices, i.e. (6·7 + 7·6)·2 per face |
| Meshes.WireSphereFacesWithin | imdd_draw_util.h:341-390 | n faces stay inside their 49·n vertices |
| Meshes.WriteWireSphereRow | imdd_draw_util.h:374-388 | the inner loop emits exactly one row |
| Meshes.WriteWireSphereFace | imdd_draw_util.h:372-388 | the nested loop emits exactly one face |
| Meshes.WriteWireSphere | imdd_draw_util.h:340-390 | the face loop emits exactly the six faces |
| Meshes.WireConeLines | imdd_draw_util.h:410-419 | each segment gives 4 indices |
| Meshes.WireConeLinesWithin | imdd_draw_util.h:410-419 | the wire cone only names its ring and its apex |
| Meshes.WriteWireCone | imdd_draw_util.h:392-420 | the loop emits exactly the cone's lines |
| Meshes.WireCylinderLines | imdd_draw_util.h:439-451 | each segment gives 6 indices |
| Meshes.WireCylinderLinesWithin | imdd_draw_util.h:439-451 | the wire cylinder only names its 36 vertices |
| Meshes.WriteWireCylinder | imdd_draw_util.h:422-452 | the loop emits exactly the cylinder's lines |
| Meshes.MeshIndices | imdd_draw_util.h:462-477 | each writer emits its table row's index count |
| Meshes.MeshIndicesMatchTable | imdd_draw_util.h:462-477 | every writer emits exactly the table's index count, a whole number of triangles or lines, and every index lies in `[vertex_offset, vertex_offset + vertex_count)` |
| Meshes.WriteMesh | imdd_draw_util.h:523-528 | calling a mesh's writer overwrites exactly its index range with its indices |
| Meshes.MeshLayoutInit | imdd_draw_util.h:491-511 | each mesh's offsets are the sums of the earlier meshes' counts, and the totals are the full sums |
| Meshes.LayoutTotals | imdd_draw_util.h:462-511 | the filled layout holds 447 vertices and 1710 indices; the wire layout holds 357 and 1212 |
| Meshes.VertexSumFits | imdd_draw_util.h:491-511 | every vertex offset fits a 16-bit index |
| Meshes.LayoutIndices | imdd_draw_util.h:513-530 | the layout's index buffer has the summed index count |
| Meshes.LayoutIndexOfMesh | imdd_draw_util.h:513-530 | entry j of mesh m's range is entry j minus that range's start of m's own list |
| Meshes.LayoutIndicesStayInMesh | imdd_draw_util.h:491-530 | every index in a mesh's range names a vertex of that mesh, so the ranges are disjoint |
| Meshes.MeshLayoutWrite | imdd_draw_util.h:513-530 | writing the layout fills the index buffer's prefix with all four meshes' indices, in order |
| Emit.MeshFromShape | imdd_draw_util.h:20-29 | lines and triangles have no mesh; AABB/OBB use the box, sphere/ellipsoid the sphere, then cone and cylinder |
| Emit.InstanceBatchIndex | imdd_draw_util.h:727-731 | the instance batch is below `IMDD_INSTANCE_BATCH_COUNT` (32) |
| Emit.InstanceBatchIndexDecodes | imdd_draw_util.h:727-731 | mesh, style, blend and zmode can be read back from the batch's bits |
| Emit.InstanceBatchIndexInjective | imdd_draw_util.h:727-731 | two headers share an instance batch exactly when mesh, style, blend and zmode agree |
| Emit.ArrayBatchIndex | imdd_draw_util.h:733-740 | the array batch is below `IMDD_ARRAY_BATCH_COUNT` (4) |
| Emit.ArrayBatchIndexInjective | imdd_draw_util.h:733-737 | two headers share an array batch exactly when blend and zmode agree |
| Emit.BatchOf | imdd_draw_util.h:876-898 | a routed header's batch is in range for its stream |
| Emit.RoutingByKind | imdd_draw_util.h:876-898 | the instance stream takes the valid AABB..CYLINDER headers, the filled stream only FILLED triangles, the wire stream WIRE lines and triangles |
| Emit.RoutingIsExclusive | imdd_draw_util.h:886-898 | no header feeds two streams |
| Emit.EveryValidShapeIsRouted | imdd_draw_util.h:876-898 | every valid header other than a FILLED line feeds some stream |
| Emit.BatchOfDependsOnBucket | imdd_draw_util.h:796-820 | routing a header and routing its bucket's representative agree, so counting by bucket and writing by header choose the same batch |
| Emit.WithColor | imdd_draw_util.h:590-594 | xyz are copied from the position and w carries the colour bits |
| Emit.WireVertices | imdd_draw_util.h:579-623 | a line gives 2 vertices and a wire triangle 6 |
| Emit.WireTriangleIsThreeEdges | imdd_draw_util.h:616-621 | the wire triangle's vertices are a, b, b, c, c, a |
| Emit.WireVerticesCarryColor | imdd_draw_util.h:587-621 | every wire vertex copies its corner's xyz and carries the colour in w |
| Emit.FilledVertices | imdd_draw_util.h:625-651 | a filled triangle gives 3 vertices sharing one normal, each with its corner's xyz and the colour in w |
| Emit.TransformCopiesRows | imdd_draw_util.h:684-698 | `imdd_emit_transform` copies the three stored rows verbatim |
| Emit.AabbTransformIsScaleAndTranslation | imdd_draw_util.h:653-682 | the AABB transform is a diagonal of half-extents with the centre as translation |
| Emit.SphereTransformIsScaleAndTranslation | imdd_draw_util.h:700-725 | the sphere transform is a uniform radius scale with the centre as translation |
| Emit.DescCountsMatchEmitters | imdd_draw_util.h:754-763 | each descriptor's vertex counts equal what its emitters write |
| Emit.EmitVertices | imdd_draw_util.h:579-596 | all or nothing: the items are written at the cursor and it advances past them exactly when they fit before `end`; otherwise nothing changes |
| Emit.EmitLineVertices | imdd_draw_util.h:579-596 | a line writes 2 vertices when they fit, and otherwise leaves buffer and cursor alone |
| Emit.EmitWireTriangleVertices | imdd_draw_util.h:598-623 | a wire triangle writes 6 vertices when they fit, and otherwise leaves buffer and cursor alone |
| Emit.CallWireEmitter | imdd_draw_util.h:895-897 | the descriptor's wire emitter is all-or-nothing over its vertices |
| Emit.EmitFilledTriangleVertices | imdd_draw_util.h:625-651 | a filled triangle writes 3 vertices when they fit, and otherwise leaves buffer and cursor alone |
| Emit.EmitInstance | imdd_draw_util.h:653-725 | unless the cursor is at `end`, one transform and one colour are written at the same position and both cursors advance by one |
| Compile.Placed | imdd_draw_util.h:579-651 | what an all-or-nothing region keeps never exceeds its room or what was offered |
| Compile.PlacedAllWhenRoom | imdd_draw_util.h:579-651 | when everything fits, a region keeps all of it in order |
| Compile.PlacedSingletons | imdd_draw_util.h:653-725 | a region of one-item groups keeps `min(groups, room)` items |
| Compile.EndOffset | imdd_draw_util.h:830-868 | a region end never passes the capacity |
| Compile.EndOffsetIsClampedSum | imdd_draw_util.h:830-868 | the end after k batches is `min(sum of the first k counts, capacity)` |
| Compile.EndOffsetMonotone | imdd_draw_util.h:830-868 | region ends never decrease with the batch index |
| Compile.Room | imdd_draw_util.h:830-868 | a region never holds more than its batch's count |
| Compile.RoomIsCountWhenAllFit | imdd_draw_util.h:830-868 | when all counts fit, each region is exactly its batch's count |
| Compile.PartitionIsDisjoint | imdd_draw_util.h:830-868 | regions are ordered by batch, pairwise disjoint and inside `[0, capacity]` |
| Compile.Partition | imdd_draw_util.h:830-868 | each batch starts at the previous end and ends at `min(previous end + count, capacity)`, with its cursor at its start, and the reported total is the last end |
| Compile.Written | imdd_draw_util.h:873-875 | the headers the writing loop replays are the `min(header_count, header_capacity)` stored ones |
| Compile.Demands | imdd_draw_util.h:793-822 | each stream has one demand per batch, namely what its stored headers need |
| Compile.AmountDependsOnBucket | imdd_draw_util.h:796-805 | a valid header needs what its bucket's representative needs, and an invalid one needs nothing |
| Compile.BucketDemandSnoc | imdd_draw_util.h:796-820 | one more stored header adds exactly its own need to the histogram-weighted count |
| Compile.HistogramDemand | imdd_draw_util.h:794-822 | counting through the histogram gives the same per-batch demand as walking the headers |
| Compile.CountedIsDemand | imdd_draw_util.h:794-822 | for stores that keep the invariant, counting from the buckets gives each batch's true demand |
| Compile.AddBucket | imdd_draw_util.h:802-820 | one bucket adds `bucket_size` times the bucket's need to each stream's batch, and nothing anywhere else |
| Compile.CountStore | imdd_draw_util.h:795-821 | one store adds its histogram-weighted count to every batch of every stream |
| Compile.CountBatches | imdd_draw_util.h:786-822 | starting from zero, the counts are the histogram-weighted totals over all stores |
| Compile.InstanceItemsSized | imdd_draw_util.h:754-763 | an instanced header writes one transform and one colour |
| Compile.FilledItemsSized | imdd_draw_util.h:754-763 | a filled header writes the descriptor's filled vertex count |
| Compile.WireItemsSized | imdd_draw_util.h:754-763 | a wire header writes the descriptor's wire vertex count |
| Compile.EmittersMatchCounts | imdd_draw_util.h:754-763 | in every stream, what the writing step emits per header is what the counting step counted for it |
| Compile.GatherTotal | imdd_draw_util.h:871-899 | what one store's headers emit into a batch totals that batch's demand from them |
| Compile.GatherAllTotal | imdd_draw_util.h:871-899 | what all stores emit into a batch totals that batch's demand |
| Compile.EmitInto | imdd_draw_util.h:886-898 | emitting into a batch never moves any region's begin or end |
| Compile.RegionAppend | imdd_draw_util.h:579-651 | an all-or-nothing append extends a region's placed items by the group when it fits, and leaves the region alone otherwise |
| Compile.RegionUntouched | imdd_draw_util.h:871-899 | a write outside a region leaves that region's contents unchanged |
| Compile.RegionAfterOwnEmit | imdd_draw_util.h:886-898 | emitting into batch k extends batch k's placed groups by one |
| Compile.RegionAfterOtherEmit | imdd_draw_util.h:886-898 | emitting into another batch leaves batch k's region unchanged |
| Compile.HoldsStep | imdd_draw_util.h:874-899 | after replaying one more header, each region holds exactly what the headers so far placed into it |
| Compile.EmitInstanceOf | imdd_draw_util.h:886-890 | an instanced header is emitted into its instance batch's transform and colour regions, with one shared cursor |
| Compile.EmitFilledOf | imdd_draw_util.h:891-894 | a FILLED triangle is emitted into its filled batch |
| Compile.EmitWireOf | imdd_draw_util.h:895-898 | a WIRE line or triangle is emitted into its wire batch |
| Compile.EmitShape | imdd_draw_util.h:876-898 | one header is routed to each stream's batch, and an invalid shape is skipped |
| Compile.EmitStore | imdd_draw_util.h:872-899 | replaying a store keeps every region holding exactly what was placed so far, and leaves the regions' bounds unchanged |
| Compile.EmitStores | imdd_draw_util.h:871-900 | replaying all stores in order leaves every region holding what all headers placed |
| Compile.Report | imdd_draw_util.h:902-917 | each batch reports its region start and the number of items written |
| Compile.ReplayedIsCompiled | imdd_draw_util.h:871-917 | after the replay, each reported batch starts at its region and holds exactly its placed items |
| Compile.BatchFromRegion | imdd_draw_util.h:903-917 | a region's report gives the batch its partition offset and its placed items |
| Compile.FreshHolds | imdd_draw_util.h:830-868 | freshly partitioned regions are disjoint and hold nothing |
| Compile.CountsAreDemands | imdd_draw_util.h:786-822 | the counting step's three arrays are the streams' true demands |
| Compile.StartReplay | imdd_draw_util.h:824-868 | before the writing step, all three streams satisfy the replay invariant |
| Compile.FinishReplay | imdd_draw_util.h:902-917 | after the writing step, the reports describe exactly what each region holds |
| Compile.ReplayAndReport | imdd_draw_util.h:870-917 | writing and reporting leave every output array compiled against its partition |
| Compile.EmitShapes | imdd_draw_util.h:765-918 | each of the four output arrays holds, per batch, the items of that batch's headers in store-then-header order, truncated at the batch's region; each batch reports its region start and item count; the totals are the ends of the last regions |
| Compile.BatchInItsRegion | imdd_draw_util.h:903-917 | each batch's offset is its region's start, its items stay inside the region, and its count is at most its demand |
| Compile.BatchesTileTheOutput | imdd_draw_util.h:830-917 | the total is within capacity, every batch lies below the total, and batches are in order without overlap |
| Compile.EverythingDrawnWhenItFits | imdd_draw_util.h:765-918 | when the demands fit, the total is their sum and every batch holds all its headers' items, in order |
| Compile.InstancesTruncateAtRegionEnd | imdd_draw_util.h:653-725 | each instance batch's count is its demand clamped to its region |
| Compile.FullStoreOverrunsWriteLoop | imdd_draw_util.h:873-875 | as written, three submissions to a two-slot store leave the loop bound at 3 over a 2-entry header array; the corrected bound is the 2 stored headers |

## Left out

- Atomics and concurrency: `imdd_atomic_fetch_add`, `imdd_atomic_load` and `imdd_atomic_store` are modelled as plain reads and writes with one producer. Interleavings of several producers are not modelled.
- `imdd_simd_sse.h`: the SSE intrinsics mean the same as the scalar fallback, which is the model's reference.
- Float arithmetic is not interpreted. This covers add, sub, mul, div, sqrt, cross, dot and normalize, `cosf`/`sinf`, triangle normals, AABB centre and half-extent, and the parity sign in `imdd_shape`. It is supplied as a `FloatOps` parameter, and results are specified only by where lanes are copied or routed.
- Vertex positions and normals of the mesh writers: only the index part of the eight writers is modelled. Those vertices come from `cosf`/`sinf` float arithmetic.
- Meshes.WriteMesh: the writers build their index list as a sequence, and `WriteMesh` copies it into the array. It does not store the indices one by one in the source's order.
- Meshes.MeshLayoutWrite: the null check on `write_mesh_func` is not modelled, because every entry of the table is non-null.
- `IMDD_SHAPE_BUCKET_COUNT`, the `bucket_sizes` field and the bucket/header conversions are used but not defined in any of the modelled files. The model takes 256 buckets, one per 8-bit value, with bucket = `style | zmode << 1 | blend << 2 | shape << 3`. The store record in `imdd_store.h` has no histogram field, so the model adds one.
- Emit.InstanceBatchIndex: takes the header rather than the four separate enumerations the source passes; mesh, style, blend and zmode are read from it.
- Emit.ArrayBatchIndex: takes the header rather than (blend, zmode); the two fields are read from it.
- Store.ShapeStore.Reserve: `header_count` and `data_qw_count` are unbounded naturals. Their 32-bit wrap-around after 2^32 quads or calls is not modelled.
- Compile.CountBatches: the per-batch `uint32_t` counts are unbounded. Their wrap-around on more than 2^32 units is not modelled.
- Compile.Partition: the running `uint32_t` `end_offset` is unbounded. If `end_offset + count` wrapped, a region would end before it starts and the instance emitters' `current == end` test would never fire; the model does not cover this.
- Store.ShapeStore.Init: requires the block to hold at least the store record. Below that, the source's unsigned subtraction wraps; the model does not cover this case.
- Store.ShapeStore.Init: `mem` is an abstract address. The returned store pointer is the object itself, and the header array, pool and histogram are separate arrays rather than slices of one block.
- Submit.Line and the other helpers take a non-null store. The null-store case of `imdd_reserve` is modelled once, by `Store.ReserveInto`.
- `*data` is returned as the offset of the run in the pool (`Option<nat>`), not as a pointer.
- Compile.EmitShapes: stores are read as values (`StoreView`), a snapshot of each store taken after submission has finished.
- Compile.EmitShapes: batches are returned as sequences rather than written into caller arrays.
- Compile.EmitShapes: counting, partitioning and replay are split across several methods (`CountBatches`, `Partition`, `ReplayAndReport`).
- Compile.EmitShapes: a header whose kind reads more quads than its run holds can read past the pool's end. The submission helpers always reserve their kind's quad count, so this takes a direct `imdd_reserve` call with a smaller `qw_count`, such as a triangle with one quad at offset capacity − 1. The model reads zero quads there, where the source reads memory past `data_qw_store`.
- Example programs, the OpenGL and Vulkan back ends, and the demo scene are not part of this model.

## Findings

| source | as written | input that shows it | evidently intended | confidence | as-written member | corrected member |
|---|---|---|---|---|---|---|
| imdd.h:363 | only the start of the data run is compared with the pool capacity | a 4-quad pool: a triangle takes quads 0..2, then a box is accepted at offset 3 and its helper writes quads 3 and 4 | accept a run only when `offset < data_qw_capacity` and `offset + qw_count <= data_qw_capacity` | not executed; high | Store.StartOnlyCheckOverrunsPool | Store.ReserveSpec |
| imdd_draw_util.h:873-875 | the writing loop runs to `header_count`, which keeps counting past `header_capacity` on a full store (imdd.h:357-360) | a store with 2 header slots and 3 submissions: the loop reads `header_store[2]`, past the array | loop to `min(header_count, header_capacity)` | not executed; high | Compile.FullStoreOverrunsWriteLoop | Compile.Written |
| imdd.h:317 | the pool capacity is unbounded, but the header's offset field has 24 bits (imdd.h:377) | a 512 MiB block gives 29,360,064 quads; a run at offset 2^24 is recorded as offset 0 and would draw the first shape's data | cap the pool at 2^24 quads | not executed; medium | Store.LargeBlockOutgrowsOffsetField | Store.LayoutOf |
