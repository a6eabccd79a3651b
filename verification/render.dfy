/**
 * The render push buffer the game fills every frame and the platform layer
 * consumes: a command buffer of typed entries reserved by bump allocation,
 * two combined vertex / index byte buffers that mesh data is copied into, and
 * a "giant" byte buffer from which the grass grids reserve their per-blade
 * buffers.  Camera and projection state is not part of this model.
 *
 * Every `used` counter only grows (until `InitRenderPushBuffer` resets it), and
 * each push hands back the counter's value from before the push, so that
 * successive pushes land in consecutive, non-overlapping regions.
 */
module Render {
  import opened Vec
  import opened Ints

  /** The size of an `f32` in bytes. */
  const F32Size: nat := 4

  datatype Vec2 = Vec2(x: real, y: real)

  // ---------------------------------------------------------------------------
  // Byte buffers
  // ---------------------------------------------------------------------------

  /**
   * `s` with the bytes `src` written at offset `at` (a `memcpy`): the written
   * range reads back as `src` and every other byte is unchanged.
   */
  function Written(s: seq<bv8>, at: nat, src: seq<bv8>): (r: seq<bv8>)
    requires at + |src| <= |s|
    ensures |r| == |s|
    ensures r[at..at + |src|] == src
    ensures forall i :: 0 <= i < |s| && !(at <= i < at + |src|) ==> r[i] == s[i]
  {
    s[..at] + src + s[at + |src|..]
  }

  /**
   * Two writes to adjacent ranges do not disturb each other: after writing `x`
   * and then `y` just past it, both read back.
   */
  lemma {:induction false} AdjacentWritesKeepBoth(s: seq<bv8>, at: nat, x: seq<bv8>, y: seq<bv8>)
    requires at + |x| + |y| <= |s|
    ensures var t := Written(Written(s, at, x), at + |x|, y);
            t[at..at + |x|] == x && t[at + |x|..at + |x| + |y|] == y
  {
    var t1 := Written(s, at, x);
    var t := Written(t1, at + |x|, y);
    forall i | at <= i < at + |x|
      ensures t[i] == x[i - at]
    {
      assert t[i] == t1[i];
      assert t1[at..at + |x|][i - at] == t1[i];
    }
  }

  /**
   * A byte buffer with a bump counter, as the (buffer, `*_used`, `*_size`)
   * triples of `PlatformRenderPushBuffer`.  `size` is the capacity the
   * counter is checked against; `data` is the memory behind it.
   */
  class ByteArena {
    const data: array<bv8>
    const size: nat
    var used: nat

    ghost predicate Valid()
      reads this
    {
      used <= size <= data.Length
    }

    /** A fresh, empty buffer of `size` bytes (its allocation is the platform layer's). */
    constructor (size: nat)
      ensures Valid()
      ensures this.size == size && used == 0
      ensures fresh(data) && data.Length == size
    {
      this.size := size;
      used := 0;
      data := new bv8[size](_ => 0);
    }

    /**
     * `push_data`: copies the (`u32`-truncated) `src_size` bytes of `src` to
     * the old `used` offset, advances `used` by exactly that many bytes and
     * returns the old offset, itself truncated to `u32` as the source does.
     * The capacity assertion becomes the precondition.
     */
    method PushData(src: seq<bv8>) returns (offset: u32)
      requires Valid()
      requires used + ToU32(|src|) <= size
      modifies this`used, data
      ensures Valid()
      ensures offset == ToU32(old(used))
      ensures old(used) < U32Modulus ==> offset == old(used)
      ensures used == old(used) + ToU32(|src|)
      ensures data[..] == Written(old(data[..]), offset, src[..ToU32(|src|)])
    {
      var originalUsed := ToU32(used);
      var srcSize := ToU32(|src|);
      forall i | originalUsed <= i < originalUsed + srcSize {
        data[i] := src[i - originalUsed];
      }
      used := used + srcSize;
      offset := originalUsed;
      assert data[..] == Written(old(data[..]), offset, src[..srcSize]) by {
        var w := Written(old(data[..]), offset, src[..srcSize]);
        forall i | 0 <= i < data.Length
          ensures data[i] == w[i]
        {
          if originalUsed <= i < originalUsed + srcSize {
            assert w[offset..offset + srcSize][i - offset] == w[i];
          }
        }
      }
    }
  }

  // ---------------------------------------------------------------------------
  // Command entries
  // ---------------------------------------------------------------------------

  datatype RenderEntryType = LineEntry | FrustumEntry | ArbitraryMeshEntry

  datatype RenderEntryHeader = RenderEntryHeader(entryType: RenderEntryType, size: nat)

  datatype RenderEntry =
    | Line(header: RenderEntryHeader, start: Vec3, end: Vec3, color: Vec3)
    | Frustum(header: RenderEntryHeader, color: Vec3,
              vertexBufferOffset: u32, indexBufferOffset: u32, indexCount: u32)
    | ArbitraryMesh(header: RenderEntryHeader, color: Vec3,
                    vertexBufferOffset: u32, indexBufferOffset: u32, indexCount: u32)

  /** An entry together with the byte offset in the command buffer it was written at. */
  datatype Placed = Placed(offset: nat, entry: RenderEntry)

  /**
   * `sizeof` of the entry structs, whose layouts live in a header that is not
   * part of this model; every size is positive.
   */
  datatype Layout = Layout(lineSize: nat, frustumSize: nat, arbitraryMeshSize: nat)
  {
    ghost predicate Valid() { 0 < lineSize && 0 < frustumSize && 0 < arbitraryMeshSize }
  }

  /** The byte range of a placed entry ends at its offset plus its header's size. */
  function End(p: Placed): nat { p.offset + p.entry.header.size }

  /**
   * The placed entries lie below `used`, in increasing offset order and
   * without overlapping one another.
   */
  ghost predicate Laid(entries: seq<Placed>, used: nat)
  {
    && (forall i :: 0 <= i < |entries| ==> End(entries[i]) <= used)
    && (forall i, j :: 0 <= i < j < |entries| ==> End(entries[i]) <= entries[j].offset)
  }

  /** An entry placed at the old end of a laid-out buffer keeps it laid out. */
  lemma {:induction false} LaidSnoc(entries: seq<Placed>, used: nat, p: Placed)
    requires Laid(entries, used)
    requires p.offset == used
    ensures Laid(entries + [p], End(p))
  {
    var es := entries + [p];
    forall i, j | 0 <= i < j < |es|
      ensures End(es[i]) <= es[j].offset
    {
      if j == |entries| {
        assert End(entries[i]) <= used;
      } else {
        assert End(entries[i]) <= entries[j].offset;
      }
    }
  }

  /** Laid-out entries stay laid out when the counter grows past them. */
  lemma LaidGrow(entries: seq<Placed>, used: nat, used': nat)
    requires Laid(entries, used) && used <= used'
    ensures Laid(entries, used')
  {
  }

  /**
   * `PlatformRenderPushBuffer`: the command buffer (`base`, `used`,
   * `total_size`, held here as the entries written into it), the combined
   * vertex and index buffers, the giant buffer and the per-frame settings
   * `init_render_push_buffer` copies in.
   */
  class RenderPushBuffer {
    /** Whether `base` is non-null. */
    var hasBase: bool
    const totalSize: nat
    var used: nat
    var entries: seq<Placed>
    const layout: Layout

    const combinedVertexBuffer: ByteArena
    const combinedIndexBuffer: ByteArena
    const giantBuffer: ByteArena

    var clearColor: Vec3
    var grassGridCountX: u32
    var grassGridCountY: u32
    var enableShadow: bool

    ghost predicate Valid()
      reads this, combinedVertexBuffer, combinedIndexBuffer, giantBuffer
    {
      && layout.Valid()
      && used <= totalSize
      && Laid(entries, used)
      && combinedVertexBuffer.Valid() && combinedIndexBuffer.Valid() && giantBuffer.Valid()
      && combinedVertexBuffer != combinedIndexBuffer
      && combinedVertexBuffer.data != combinedIndexBuffer.data
      && giantBuffer != combinedVertexBuffer && giantBuffer != combinedIndexBuffer
      && giantBuffer.data != combinedVertexBuffer.data && giantBuffer.data != combinedIndexBuffer.data
    }

    /** The buffers as the platform layer hands them over: allocated, nothing pushed. */
    constructor (totalSize: nat, vertexSize: nat, indexSize: nat, giantSize: nat, layout: Layout)
      requires layout.Valid()
      ensures Valid()
      ensures hasBase && this.totalSize == totalSize && used == 0 && entries == []
      ensures this.layout == layout
      ensures combinedVertexBuffer.size == vertexSize && combinedVertexBuffer.used == 0
      ensures combinedIndexBuffer.size == indexSize && combinedIndexBuffer.used == 0
      ensures giantBuffer.size == giantSize && giantBuffer.used == 0
      ensures fresh(combinedVertexBuffer) && fresh(combinedVertexBuffer.data)
      ensures fresh(combinedIndexBuffer) && fresh(combinedIndexBuffer.data)
      ensures fresh(giantBuffer) && fresh(giantBuffer.data)
    {
      hasBase := true;
      this.totalSize := totalSize;
      used := 0;
      entries := [];
      this.layout := layout;
      combinedVertexBuffer := new ByteArena(vertexSize);
      combinedIndexBuffer := new ByteArena(indexSize);
      giantBuffer := new ByteArena(giantSize);
      clearColor := Zero;
      grassGridCountX := 0;
      grassGridCountY := 0;
      enableShadow := false;
    }

    /**
     * `init_render_push_buffer` without the camera transforms: asserts `base`,
     * stores the frame settings and empties the command buffer and both
     * combined buffers.  The giant buffer keeps its reservations.
     */
    method InitRenderPushBuffer(gridCountX: u32, gridCountY: u32, clear: Vec3, shadow: bool)
      requires Valid()
      requires hasBase
      modifies this, combinedVertexBuffer`used, combinedIndexBuffer`used
      ensures Valid()
      ensures used == 0 && entries == []
      ensures combinedVertexBuffer.used == 0 && combinedIndexBuffer.used == 0
      ensures clearColor == clear && enableShadow == shadow
      ensures grassGridCountX == gridCountX && grassGridCountY == gridCountY
      ensures hasBase == old(hasBase)
      ensures unchanged(giantBuffer)
    {
      clearColor := clear;
      grassGridCountX := gridCountX;
      grassGridCountY := gridCountY;
      enableShadow := shadow;
      combinedVertexBuffer.used := 0;
      combinedIndexBuffer.used := 0;
      used := 0;
      entries := [];
    }

    /**
     * `_push_render_element`: reserves `size` bytes at the old `used`, whose
     * offset it returns.  The capacity assertion is the precondition.
     */
    method PushRenderElement(size: nat) returns (offset: nat)
      requires Valid()
      requires used + size <= totalSize
      modifies this`used
      ensures Valid()
      ensures offset == old(used) && used == old(used) + size
    {
      offset := used;
      used := used + size;
      LaidGrow(entries, offset, used);
    }

    /**
     * `push_line`: a `Line` entry whose header carries its type and its own
     * size, holding `start`, `end` and `color` as given, at the old `used`.
     */
    method PushLine(start: Vec3, end: Vec3, color: Vec3)
      requires Valid()
      requires used + layout.lineSize <= totalSize
      modifies this`used, this`entries
      ensures Valid()
      ensures used == old(used) + layout.lineSize
      ensures entries == old(entries)
        + [Placed(old(used), Line(RenderEntryHeader(LineEntry, layout.lineSize), start, end, color))]
    {
      var offset := PushRenderElement(layout.lineSize);
      var p := Placed(offset, Line(RenderEntryHeader(LineEntry, layout.lineSize), start, end, color));
      LaidSnoc(entries, offset, p);
      entries := entries + [p];
    }

    /**
     * `push_frustum`: a `Frustum` entry at the old `used` whose vertex and index
     * offsets are where its data was copied to, i.e. the combined buffers'
     * counters before the push.  `vertices` are the bytes of the `v3` array
     * and `indices` those of the `u32` array of `indexCount` entries.
     */
    method PushFrustum(color: Vec3, vertices: seq<bv8>, indices: seq<bv8>, indexCount: u32)
      requires Valid()
      requires |indices| == 4 * indexCount
      requires used + layout.frustumSize <= totalSize
      requires combinedVertexBuffer.used + ToU32(|vertices|) <= combinedVertexBuffer.size
      requires combinedIndexBuffer.used + ToU32(|indices|) <= combinedIndexBuffer.size
      modifies this`used, this`entries, combinedVertexBuffer`used, combinedVertexBuffer.data
      modifies combinedIndexBuffer`used, combinedIndexBuffer.data
      ensures Valid()
      ensures used == old(used) + layout.frustumSize
      ensures entries == old(entries) + [Placed(old(used), Frustum(
                RenderEntryHeader(FrustumEntry, layout.frustumSize), color,
                ToU32(old(combinedVertexBuffer.used)), ToU32(old(combinedIndexBuffer.used)), indexCount))]
      ensures combinedVertexBuffer.used == old(combinedVertexBuffer.used) + ToU32(|vertices|)
      ensures combinedIndexBuffer.used == old(combinedIndexBuffer.used) + ToU32(|indices|)
      ensures combinedVertexBuffer.data[..]
           == Written(old(combinedVertexBuffer.data[..]), ToU32(old(combinedVertexBuffer.used)),
                      vertices[..ToU32(|vertices|)])
      ensures combinedIndexBuffer.data[..]
           == Written(old(combinedIndexBuffer.data[..]), ToU32(old(combinedIndexBuffer.used)),
                      indices[..ToU32(|indices|)])
    {
      var offset := PushRenderElement(layout.frustumSize);
      var vertexOffset := combinedVertexBuffer.PushData(vertices);
      var indexOffset := combinedIndexBuffer.PushData(indices);
      var p := Placed(offset, Frustum(RenderEntryHeader(FrustumEntry, layout.frustumSize), color,
                                      vertexOffset, indexOffset, indexCount));
      LaidSnoc(entries, offset, p);
      entries := entries + [p];
    }

    /**
     * `push_arbitrary_mesh`: as `PushFrustum`, with an `ArbitraryMesh` entry;
     * `vertices` are the bytes of the `VertexPN` array.
     */
    method PushArbitraryMesh(color: Vec3, vertices: seq<bv8>, indices: seq<bv8>, indexCount: u32)
      requires Valid()
      requires |indices| == 4 * indexCount
      requires used + layout.arbitraryMeshSize <= totalSize
      requires combinedVertexBuffer.used + ToU32(|vertices|) <= combinedVertexBuffer.size
      requires combinedIndexBuffer.used + ToU32(|indices|) <= combinedIndexBuffer.size
      modifies this`used, this`entries, combinedVertexBuffer`used, combinedVertexBuffer.data
      modifies combinedIndexBuffer`used, combinedIndexBuffer.data
      ensures Valid()
      ensures used == old(used) + layout.arbitraryMeshSize
      ensures entries == old(entries) + [Placed(old(used), ArbitraryMesh(
                RenderEntryHeader(ArbitraryMeshEntry, layout.arbitraryMeshSize), color,
                ToU32(old(combinedVertexBuffer.used)), ToU32(old(combinedIndexBuffer.used)), indexCount))]
      ensures combinedVertexBuffer.used == old(combinedVertexBuffer.used) + ToU32(|vertices|)
      ensures combinedIndexBuffer.used == old(combinedIndexBuffer.used) + ToU32(|indices|)
      ensures combinedVertexBuffer.data[..]
           == Written(old(combinedVertexBuffer.data[..]), ToU32(old(combinedVertexBuffer.used)),
                      vertices[..ToU32(|vertices|)])
      ensures combinedIndexBuffer.data[..]
           == Written(old(combinedIndexBuffer.data[..]), ToU32(old(combinedIndexBuffer.used)),
                      indices[..ToU32(|indices|)])
    {
      var offset := PushRenderElement(layout.arbitraryMeshSize);
      var vertexOffset := combinedVertexBuffer.PushData(vertices);
      var indexOffset := combinedIndexBuffer.PushData(indices);
      var p := Placed(offset, ArbitraryMesh(RenderEntryHeader(ArbitraryMeshEntry, layout.arbitraryMeshSize),
                                            color, vertexOffset, indexOffset, indexCount));
      LaidSnoc(entries, offset, p);
      entries := entries + [p];
    }
  }

  // ---------------------------------------------------------------------------
  // Grass grids
  // ---------------------------------------------------------------------------

  /**
   * `GrassGrid`: the blade counts, the covered rectangle and the two
   * per-blade `f32` buffers it reserves in the giant buffer, each given by
   * whether its pointer is set, its byte offset and its byte size.
   */
  class GrassGrid {
    var grassCountX: u32
    var grassCountY: u32
    var updatedFloorZBuffer: bool
    var min: Vec2
    var max: Vec2

    var hasFloorZBuffer: bool
    var floorZBufferOffset: nat
    var floorZBufferSize: nat

    var hasPerlinNoiseBuffer: bool
    var perlinNoiseBufferOffset: nat
    var perlinNoiseBufferSize: nat

    /** A zero-initialised grid, as the game state's memory provides it. */
    constructor ()
      ensures !hasFloorZBuffer && !hasPerlinNoiseBuffer
      ensures grassCountX == 0 && grassCountY == 0 && !updatedFloorZBuffer
    {
      grassCountX := 0;
      grassCountY := 0;
      updatedFloorZBuffer := false;
      min := Vec2(0.0, 0.0);
      max := Vec2(0.0, 0.0);
      hasFloorZBuffer := false;
      floorZBufferOffset := 0;
      floorZBufferSize := 0;
      hasPerlinNoiseBuffer := false;
      perlinNoiseBufferOffset := 0;
      perlinNoiseBufferSize := 0;
    }

    /** Reserves and clears one `f32` per blade for the floor-z buffer and marks it updated. */
    method ReserveFloorZBuffer(giant: ByteArena, total: u32)
      requires giant.Valid() && giant.used + F32Size * total <= giant.size
      modifies this`hasFloorZBuffer, this`floorZBufferSize, this`floorZBufferOffset, this`updatedFloorZBuffer
      modifies giant`used, giant.data
      ensures giant.Valid() && hasFloorZBuffer && updatedFloorZBuffer
      ensures floorZBufferOffset == old(giant.used) && floorZBufferSize == F32Size * total
      ensures giant.used == old(giant.used) + F32Size * total
      ensures giant.data[..] == ZeroedFloats(old(giant.data[..]), old(giant.used), total)
    {
      hasFloorZBuffer := true;
      floorZBufferSize := F32Size * total;
      floorZBufferOffset := giant.used;
      giant.used := giant.used + floorZBufferSize;
      ZeroFloorZBuffer(giant.data, floorZBufferOffset, total);
      updatedFloorZBuffer := true;
    }

    /** Reserves one `f32` per blade for the Perlin-noise buffer. */
    method ReservePerlinNoiseBuffer(giant: ByteArena, total: u32)
      requires giant.Valid() && giant.used + F32Size * total <= giant.size
      modifies this`hasPerlinNoiseBuffer, this`perlinNoiseBufferSize, this`perlinNoiseBufferOffset, giant`used
      ensures giant.Valid() && hasPerlinNoiseBuffer
      ensures perlinNoiseBufferOffset == old(giant.used) && perlinNoiseBufferSize == F32Size * total
      ensures giant.used == old(giant.used) + F32Size * total
    {
      hasPerlinNoiseBuffer := true;
      perlinNoiseBufferSize := F32Size * total;
      perlinNoiseBufferOffset := giant.used;
      giant.used := giant.used + perlinNoiseBufferSize;
    }
  }

  /** `total_grass_count`: the blade count, computed in `u32` arithmetic. */
  function GrassCount(countX: u32, countY: u32): (n: u32)
    ensures countX * countY < U32Modulus ==> n == countX * countY
  {
    ToU32(countX * countY)
  }

  /** The bytes `init_grass_grid` reserves for a buffer whose pointer is null: one `f32` per blade. */
  function Reservation(isSet: bool, countX: u32, countY: u32): (n: nat)
    ensures isSet ==> n == 0
    ensures !isSet ==> n == F32Size * GrassCount(countX, countY)
  {
    if isSet then 0 else F32Size * GrassCount(countX, countY)
  }

  /** `s` with the `count` `f32`s from byte offset `at` on set to zero. */
  function ZeroedFloats(s: seq<bv8>, at: nat, count: nat): (r: seq<bv8>)
    requires at + F32Size * count <= |s|
    ensures |r| == |s|
  {
    s[..at] + seq(F32Size * count, _ => 0) + s[at + F32Size * count..]
  }

  /** Every byte of the zeroed range reads zero, and no other byte changes. */
  lemma ZeroedFloatsMeaning(s: seq<bv8>, at: nat, count: nat)
    requires at + F32Size * count <= |s|
    ensures forall i :: at <= i < at + F32Size * count ==> ZeroedFloats(s, at, count)[i] == 0
    ensures forall i :: 0 <= i < |s| && !(at <= i < at + F32Size * count) ==> ZeroedFloats(s, at, count)[i] == s[i]
  {
  }

  /** Zeroing one more float extends the zeroed range by its four bytes. */
  lemma {:induction false} ZeroedFloatsStep(s: seq<bv8>, at: nat, i: nat)
    requires at + F32Size * (i + 1) <= |s|
    ensures var k := at + F32Size * i;
            ZeroedFloats(s, at, i + 1)
              == ZeroedFloats(s, at, i)[k := 0][k + 1 := 0][k + 2 := 0][k + 3 := 0]
  {
    var k := at + F32Size * i;
    var a := ZeroedFloats(s, at, i + 1);
    var b := ZeroedFloats(s, at, i)[k := 0][k + 1 := 0][k + 2 := 0][k + 3 := 0];
    forall j | 0 <= j < |s|
      ensures a[j] == b[j]
    {
      if j < at {
      } else if j < k + 4 {
        assert a[j] == 0;
      } else {
        assert a[j] == s[j];
      }
    }
  }

  /**
   * The floor-z loop as the source writes it: every one of the `count`
   * iterations stores `0` through the buffer's base pointer, so only the
   * first float is ever cleared.
   */
  method ZeroFloorZBufferAsWritten(data: array<bv8>, at: nat, count: u32)
    requires at + F32Size * count <= data.Length
    modifies data
    ensures data[..] == ZeroedFloats(old(data[..]), at, if count == 0 then 0 else 1)
  {
    var i := 0;
    while i < count
      invariant 0 <= i <= count
      invariant data[..] == ZeroedFloats(old(data[..]), at, if i == 0 then 0 else 1)
    {
      ZeroedFloatsStep(old(data[..]), at, 0);
      data[at] := 0;
      data[at + 1] := 0;
      data[at + 2] := 0;
      data[at + 3] := 0;
      i := i + 1;
    }
  }

  /**
   * For a two-blade grid over non-zero memory the loop as written leaves the
   * second blade's float untouched, whereas clearing the buffer means zeroing
   * both.
   */
  lemma AsWrittenZeroingMissesLaterFloats()
    ensures var s: seq<bv8> := [1, 1, 1, 1, 1, 1, 1, 1];
            ZeroedFloats(s, 0, 1)[4] == 1 && ZeroedFloats(s, 0, 2)[4] == 0
  {
    var s: seq<bv8> := [1, 1, 1, 1, 1, 1, 1, 1];
    ZeroedFloatsMeaning(s, 0, 1);
    ZeroedFloatsMeaning(s, 0, 2);
  }

  /** The floor-z loop as evidently intended: iteration `i` clears float `i`. */
  method ZeroFloorZBuffer(data: array<bv8>, at: nat, count: u32)
    requires at + F32Size * count <= data.Length
    modifies data
    ensures data[..] == ZeroedFloats(old(data[..]), at, count)
  {
    var i := 0;
    while i < count
      invariant 0 <= i <= count
      invariant data[..] == ZeroedFloats(old(data[..]), at, i)
    {
      ZeroedFloatsStep(old(data[..]), at, i);
      var k := at + F32Size * i;
      data[k] := 0;
      data[k + 1] := 0;
      data[k + 2] := 0;
      data[k + 3] := 0;
      i := i + 1;
    }
  }

  /**
   * `init_grass_grid`: records the counts and rectangle, then reserves one
   * `f32` per blade for the floor-z buffer and then for the Perlin-noise
   * buffer, each only when its pointer is still null, by bumping the giant
   * buffer's counter; a fresh floor-z buffer is cleared and marked updated.
   * The two capacity assertions become the precondition (the second implies
   * the first).  Both buffers are set afterwards, so a repeated call reserves
   * nothing.
   */
  method InitGrassGrid(giant: ByteArena, grid: GrassGrid, countX: u32, countY: u32, min: Vec2, max: Vec2)
    requires giant.Valid()
    requires giant.used + Reservation(grid.hasFloorZBuffer, countX, countY)
                        + Reservation(grid.hasPerlinNoiseBuffer, countX, countY) <= giant.size
    modifies grid, giant`used, giant.data
    ensures giant.Valid()
    ensures grid.grassCountX == countX && grid.grassCountY == countY
    ensures grid.min == min && grid.max == max
    ensures grid.hasFloorZBuffer && grid.hasPerlinNoiseBuffer
    ensures giant.used == old(giant.used) + Reservation(old(grid.hasFloorZBuffer), countX, countY)
                                          + Reservation(old(grid.hasPerlinNoiseBuffer), countX, countY)
    ensures grid.updatedFloorZBuffer == !old(grid.hasFloorZBuffer)
    ensures old(grid.hasFloorZBuffer) ==>
              && grid.floorZBufferOffset == old(grid.floorZBufferOffset)
              && grid.floorZBufferSize == old(grid.floorZBufferSize)
              && giant.data[..] == old(giant.data[..])
    ensures !old(grid.hasFloorZBuffer) ==>
              && grid.floorZBufferOffset == old(giant.used)
              && grid.floorZBufferSize == F32Size * GrassCount(countX, countY)
              && giant.data[..] == ZeroedFloats(old(giant.data[..]), old(giant.used), GrassCount(countX, countY))
    ensures old(grid.hasPerlinNoiseBuffer) ==>
              && grid.perlinNoiseBufferOffset == old(grid.perlinNoiseBufferOffset)
              && grid.perlinNoiseBufferSize == old(grid.perlinNoiseBufferSize)
    ensures !old(grid.hasPerlinNoiseBuffer) ==>
              && grid.perlinNoiseBufferOffset == old(giant.used) + Reservation(old(grid.hasFloorZBuffer), countX, countY)
              && grid.perlinNoiseBufferSize == F32Size * GrassCount(countX, countY)
  {
    grid.grassCountX := countX;
    grid.grassCountY := countY;
    grid.updatedFloorZBuffer := false;
    grid.min := min;
    grid.max := max;

    var total := GrassCount(countX, countY);

    if !grid.hasFloorZBuffer {
      grid.ReserveFloorZBuffer(giant, total);
    }

    if !grid.hasPerlinNoiseBuffer {
      grid.ReservePerlinNoiseBuffer(giant, total);
    }
  }
}
