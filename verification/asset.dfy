/**
 * The asset tables: the mesh-asset table that `load_mesh_asset` appends to
 * and `get_mesh_asset` searches, and the font tables that `add_glyph_asset`
 * fills (sequential glyph IDs, the codepoint-to-ID map) and that the kerning
 * lookup indexes row-major by glyph-ID pair.  Font metrics, bitmaps and GPU
 * buffer allocation are foreign calls; their results enter as parameters.
 */
module Assets {
  import opened Wrappers
  import opened Ints

  // ---------------------------------------------------------------------------
  // Mesh assets
  // ---------------------------------------------------------------------------

  /** An `AssetTag` enumerator, by its value. */
  type AssetTag = nat

  /** A GPU-visible buffer: the handle the GPU queue returned and the bytes copied into its memory. */
  datatype GpuBuffer = GpuBuffer(handle: nat, memory: seq<bv8>)

  datatype MeshAsset = MeshAsset(
    vertexBuffer: GpuBuffer, vertexCount: u32,
    indexBuffer: GpuBuffer, indexCount: u32,
    tag: AssetTag)

  /**
   * The index of the first asset of `assets` carrying `tag`, or `None` when
   * none does.
   */
  function FirstWithTag(assets: seq<MeshAsset>, tag: AssetTag): (r: Option<nat>)
    ensures r.Some? ==> r.value < |assets| && assets[r.value].tag == tag
    ensures r.Some? ==> forall k :: 0 <= k < r.value ==> assets[k].tag != tag
    ensures r.None? <==> forall k :: 0 <= k < |assets| ==> assets[k].tag != tag
  {
    if assets == [] then None
    else if assets[0].tag == tag then Some(0)
    else match FirstWithTag(assets[1..], tag)
      case None => None
      case Some(i) => Some(i + 1)
  }

  /**
   * What `get_mesh_asset` designates, for the populated part of the table: a
   * non-null, non-zero ID is used as the index as it stands (it is not checked
   * against the table); otherwise the first asset with the tag.  `None` is
   * the case in which the source's final assertion fails.
   */
  function MeshLookup(populated: seq<MeshAsset>, id: Option<u32>, tag: AssetTag): (r: Option<nat>)
    ensures id.Some? && id.value != 0 ==> r == Some(id.value)
    ensures (id.None? || id.value == 0) ==> r == FirstWithTag(populated, tag)
  {
    if id.Some? && id.value != 0 then Some(id.value) else FirstWithTag(populated, tag)
  }

  /**
   * Appending an asset leaves the lookup of every tag already present
   * unchanged, and makes the new asset the one found for a tag not yet
   * present.
   */
  lemma {:induction false} FirstWithTagAppend(assets: seq<MeshAsset>, a: MeshAsset, tag: AssetTag)
    ensures FirstWithTag(assets + [a], tag)
         == if FirstWithTag(assets, tag).Some? then FirstWithTag(assets, tag)
            else if a.tag == tag then Some(|assets|) else None
  {
    var s := assets + [a];
    var r := FirstWithTag(assets, tag);
    if r.Some? {
      forall k | 0 <= k < r.value
        ensures s[k].tag != tag
      {
        assert s[k] == assets[k];
      }
      assert s[r.value] == assets[r.value];
      FirstMatchIsFirstWithTag(s, tag, r.value);
    } else if a.tag == tag {
      forall k | 0 <= k < |assets|
        ensures s[k].tag != tag
      {
        assert s[k] == assets[k];
      }
      FirstMatchIsFirstWithTag(s, tag, |assets|);
    } else {
      forall k | 0 <= k < |s|
        ensures s[k].tag != tag
      {
        if k < |assets| {
          assert s[k] == assets[k];
        }
      }
    }
  }

  /** `GameAssets`: the fixed-capacity mesh-asset table and its fill count. */
  class GameAssets {
    const meshAssets: array<MeshAsset>
    var populatedMeshAsset: nat

    ghost predicate Valid()
      reads this
    {
      populatedMeshAsset <= meshAssets.Length
    }

    /** An empty table of `capacity` slots, as zeroed game memory provides it. */
    constructor (capacity: nat, blank: MeshAsset)
      ensures Valid()
      ensures populatedMeshAsset == 0 && meshAssets.Length == capacity
      ensures fresh(meshAssets)
    {
      meshAssets := new MeshAsset[capacity](_ => blank);
      populatedMeshAsset := 0;
    }

    /** The populated prefix of the table. */
    ghost function Populated(): seq<MeshAsset>
      reads this, meshAssets
      requires Valid()
    {
      meshAssets[..populatedMeshAsset]
    }

    /**
     * `load_mesh_asset`, table side: fills slot `populatedMeshAsset` with the
     * copied vertex and index data, the counts and the tag, and advances the
     * count; the capacity assertion is the precondition.  `vertexHandle` and
     * `indexHandle` stand for the buffers the GPU queue hands back.
     */
    method LoadMeshAsset(tag: AssetTag, vertices: seq<bv8>, vertexCount: u32,
                         indices: seq<bv8>, indexCount: u32, vertexHandle: nat, indexHandle: nat)
      requires Valid()
      requires populatedMeshAsset + 1 <= meshAssets.Length
      modifies this`populatedMeshAsset, meshAssets
      ensures Valid()
      ensures populatedMeshAsset == old(populatedMeshAsset) + 1
      ensures meshAssets[..] == old(meshAssets[..])[old(populatedMeshAsset) := MeshAsset(
                GpuBuffer(vertexHandle, vertices), vertexCount, GpuBuffer(indexHandle, indices), indexCount, tag)]
      ensures Populated() == old(Populated()) + [meshAssets[old(populatedMeshAsset)]]
    {
      var slot := populatedMeshAsset;
      populatedMeshAsset := populatedMeshAsset + 1;
      var vertexBuffer := GpuBuffer(vertexHandle, vertices);
      var indexBuffer := GpuBuffer(indexHandle, indices);
      meshAssets[slot] := MeshAsset(vertexBuffer, vertexCount, indexBuffer, indexCount, tag);
      assert meshAssets[..populatedMeshAsset] == old(meshAssets[..])[..slot] + [meshAssets[slot]];
    }

    /**
     * `get_mesh_asset`: the table index it designates, by the scan over the
     * populated slots that stops at the first matching tag.
     */
    method GetMeshAsset(id: Option<u32>, tag: AssetTag) returns (result: Option<nat>)
      requires Valid()
      ensures result == MeshLookup(meshAssets[..populatedMeshAsset], id, tag)
      ensures result.Some? && (id.None? || id.value == 0) ==>
                result.value < populatedMeshAsset && meshAssets[result.value].tag == tag
    {
      result := None;
      if id.Some? && id.value != 0 {
        result := Some(id.value);
      } else {
        var i := 0;
        while i < populatedMeshAsset
          invariant 0 <= i <= populatedMeshAsset
          invariant result.None? ==> forall k :: 0 <= k < i ==> meshAssets[k].tag != tag
          invariant result.Some? ==> result == FirstWithTag(meshAssets[..populatedMeshAsset], tag)
        {
          if meshAssets[i].tag == tag {
            result := Some(i);
            FirstMatchIsFirstWithTag(meshAssets[..populatedMeshAsset], tag, i);
            break;
          }
          i := i + 1;
        }
        if result.None? {
          assert forall k :: 0 <= k < populatedMeshAsset ==> meshAssets[..populatedMeshAsset][k].tag != tag;
        }
      }
    }
  }

  /** An index that matches with no match before it is the one `FirstWithTag` finds. */
  lemma FirstMatchIsFirstWithTag(assets: seq<MeshAsset>, tag: AssetTag, i: nat)
    requires i < |assets| && assets[i].tag == tag
    requires forall k :: 0 <= k < i ==> assets[k].tag != tag
    ensures FirstWithTag(assets, tag) == Some(i)
  {
  }

  /**
   * After loading an asset whose tag was not yet in the table, looking that tag
   * up without an ID finds the new asset; looking up any tag that was present
   * finds what it found before.
   */
  lemma LoadedMeshIsFound(populated: seq<MeshAsset>, a: MeshAsset, tag: AssetTag)
    ensures FirstWithTag(populated, a.tag).None? ==> MeshLookup(populated + [a], None, a.tag) == Some(|populated|)
    ensures FirstWithTag(populated, tag).Some? ==>
              MeshLookup(populated + [a], None, tag) == MeshLookup(populated, None, tag)
  {
    FirstWithTagAppend(populated, a, a.tag);
    FirstWithTagAppend(populated, a, tag);
  }

  // ---------------------------------------------------------------------------
  // Fonts
  // ---------------------------------------------------------------------------

  /** A glyph's table entry: its codepoint and its scaled horizontal metrics. */
  datatype GlyphAsset = GlyphAsset(unicodeCodepoint: u32, leftBearingPx: real, xAdvancePx: real)

  /** The kerning-table slot of a glyph pair: row-major, computed in `u32` arithmetic. */
  function KerningIndex(maxGlyphCount: nat, id0: nat, id1: nat): nat
  {
    ToU32(id0 * maxGlyphCount + id1)
  }

  /** Whether the `max * max` slots of a kerning table are all addressable in `u32`. */
  predicate KerningTableFits(maxGlyphCount: nat)
  {
    maxGlyphCount * maxGlyphCount <= U32Modulus
  }

  lemma MulMonotone(x: nat, y: nat, m: nat)
    requires x <= y
    ensures x * m <= y * m
  {
  }

  /** The row-major position of an in-range pair lies below `max * max`. */
  lemma {:induction false} RowMajorInRange(m: nat, i: nat, j: nat)
    requires i < m && j < m
    ensures i * m + j < m * m
  {
    assert i * m + j < i * m + m;
    assert i * m + m == (i + 1) * m;
    MulMonotone(i + 1, m, m);
  }

  /** Row-major positions of in-range pairs are distinct for distinct pairs. */
  lemma {:induction false} RowMajorInjective(m: nat, i0: nat, j0: nat, i1: nat, j1: nat)
    requires j0 < m && j1 < m
    requires i0 * m + j0 == i1 * m + j1
    ensures i0 == i1 && j0 == j1
  {
    if i0 < i1 {
      assert i0 * m + j0 < (i0 + 1) * m;
      MulMonotone(i0 + 1, i1, m);
    } else if i1 < i0 {
      assert i1 * m + j1 < (i1 + 1) * m;
      MulMonotone(i1 + 1, i0, m);
    }
  }

  /** Row-major indexing of a pair of in-range IDs stays inside the `max * max` table. */
  lemma KerningIndexInRange(maxGlyphCount: nat, id0: nat, id1: nat)
    requires id0 < maxGlyphCount && id1 < maxGlyphCount
    ensures KerningIndex(maxGlyphCount, id0, id1) < maxGlyphCount * maxGlyphCount
  {
    RowMajorInRange(maxGlyphCount, id0, id1);
  }

  /**
   * Distinct in-range glyph pairs have distinct kerning slots, as long as the
   * table's index range fits in `u32`.
   */
  lemma KerningIndexInjective(maxGlyphCount: nat, i0: nat, j0: nat, i1: nat, j1: nat)
    requires KerningTableFits(maxGlyphCount)
    requires i0 < maxGlyphCount && j0 < maxGlyphCount && i1 < maxGlyphCount && j1 < maxGlyphCount
    requires KerningIndex(maxGlyphCount, i0, j0) == KerningIndex(maxGlyphCount, i1, j1)
    ensures i0 == i1 && j0 == j1
  {
    RowMajorInRange(maxGlyphCount, i0, j0);
    RowMajorInRange(maxGlyphCount, i1, j1);
    RowMajorInjective(maxGlyphCount, i0, j0, i1, j1);
  }

  /** The scaled kerning advance of glyphs `a` and `b`, `kern` standing for the font library's value. */
  function KerningValue(glyphs: seq<GlyphAsset>, fontScale: real, kern: (u32, u32) -> int, a: nat, b: nat): real
    requires a < |glyphs| && b < |glyphs|
  {
    fontScale * kern(glyphs[a].unicodeCodepoint, glyphs[b].unicodeCodepoint) as real
  }

  /**
   * The pairs before row `i`, column `j` in row-major order hold their
   * kerning in `table`.
   */
  ghost predicate FilledUpTo(table: seq<real>, glyphs: seq<GlyphAsset>, fontScale: real,
                             kern: (u32, u32) -> int, i: nat, j: nat)
  {
    forall a, b {:trigger KerningIndex(|glyphs|, a, b)} ::
      0 <= a < |glyphs| && 0 <= b < |glyphs| && (a < i || (a == i && b < j)) ==>
        KerningIndex(|glyphs|, a, b) < |table|
        && table[KerningIndex(|glyphs|, a, b)] == KerningValue(glyphs, fontScale, kern, a, b)
  }

  /** A complete row i is the start of row i + 1. */
  lemma RowFilled(table: seq<real>, glyphs: seq<GlyphAsset>, fontScale: real, kern: (u32, u32) -> int, i: nat)
    requires FilledUpTo(table, glyphs, fontScale, kern, i, |glyphs|)
    ensures FilledUpTo(table, glyphs, fontScale, kern, i + 1, 0)
  {
  }

  /** Writing pair `(i, j)`'s slot extends the filled region by that pair and disturbs no earlier one. */
  lemma FilledStep(table: seq<real>, glyphs: seq<GlyphAsset>, fontScale: real,
                   kern: (u32, u32) -> int, i: nat, j: nat)
    requires KerningTableFits(|glyphs|) && |table| == |glyphs| * |glyphs|
    requires i < |glyphs| && j < |glyphs|
    requires FilledUpTo(table, glyphs, fontScale, kern, i, j)
    ensures KerningIndex(|glyphs|, i, j) < |table|
    ensures FilledUpTo(table[KerningIndex(|glyphs|, i, j) := KerningValue(glyphs, fontScale, kern, i, j)],
                       glyphs, fontScale, kern, i, j + 1)
  {
    var m := |glyphs|;
    KerningIndexInRange(m, i, j);
    var t := table[KerningIndex(m, i, j) := KerningValue(glyphs, fontScale, kern, i, j)];
    forall a, b | 0 <= a < m && 0 <= b < m && (a < i || (a == i && b < j + 1))
      ensures KerningIndex(m, a, b) < |t|
      ensures t[KerningIndex(m, a, b)] == KerningValue(glyphs, fontScale, kern, a, b)
    {
      KerningIndexInRange(m, a, b);
      if !(a == i && b == j) && KerningIndex(m, a, b) == KerningIndex(m, i, j) {
        KerningIndexInjective(m, a, b, i, j);
      }
    }
  }

  /**
   * `FontAsset`, as `begin_load_font` leaves it: `maxGlyphCount` glyph slots,
   * a zeroed codepoint-to-glyph-ID table and a `max * max` kerning table.
   */
  class FontAsset {
    const maxGlyphCount: u32
    const codepointToGlyphID: array<u16>
    const glyphAssets: array<GlyphAsset>
    const kerningAdvances: array<real>

    ghost predicate Valid()
      reads this
    {
      && glyphAssets.Length == maxGlyphCount
      && kerningAdvances.Length == maxGlyphCount * maxGlyphCount
    }

    constructor (maxGlyphCount: u32, codepointCount: nat)
      ensures Valid()
      ensures this.maxGlyphCount == maxGlyphCount
      ensures codepointToGlyphID.Length == codepointCount
      ensures forall c :: 0 <= c < codepointCount ==> codepointToGlyphID[c] == 0
      ensures fresh(codepointToGlyphID) && fresh(glyphAssets) && fresh(kerningAdvances)
    {
      this.maxGlyphCount := maxGlyphCount;
      codepointToGlyphID := new u16[codepointCount](_ => 0);
      glyphAssets := new GlyphAsset[maxGlyphCount](_ => GlyphAsset(0, 0.0, 0.0));
      kerningAdvances := new real[maxGlyphCount * maxGlyphCount](_ => 0.0);
    }

    /** Codepoint `c` maps to a glyph ID whose glyph records `c`. */
    ghost predicate Registered(c: nat)
      reads this, codepointToGlyphID, glyphAssets
    {
      && c < codepointToGlyphID.Length
      && codepointToGlyphID[c] < glyphAssets.Length
      && glyphAssets[codepointToGlyphID[c]].unicodeCodepoint == c
    }

    /** Every in-range glyph pair's slot holds the scaled kerning advance of the two glyphs. */
    ghost predicate KerningFilled(fontScale: real, kern: (u32, u32) -> int)
      reads this, glyphAssets, kerningAdvances
    {
      FilledUpTo(kerningAdvances[..], glyphAssets[..], fontScale, kern, glyphAssets.Length, 0)
    }
  }

  /**
   * `get_glyph_kerning`: the kerning advance of a codepoint pair, read at the
   * row-major slot of their glyph IDs and scaled.  The codepoints must lie in
   * the table and map to in-range IDs, which the source leaves unchecked.
   */
  function GlyphKerning(font: FontAsset, scale: real, codepoint0: nat, codepoint1: nat): (r: real)
    reads font, font.codepointToGlyphID, font.kerningAdvances
    requires font.Valid()
    requires codepoint0 < font.codepointToGlyphID.Length && codepoint1 < font.codepointToGlyphID.Length
    requires font.codepointToGlyphID[codepoint0] < font.maxGlyphCount
    requires font.codepointToGlyphID[codepoint1] < font.maxGlyphCount
    ensures KerningTableFits(font.maxGlyphCount) ==>
              var id0, id1 := font.codepointToGlyphID[codepoint0] as nat, font.codepointToGlyphID[codepoint1] as nat;
              && id0 * font.maxGlyphCount + id1 < font.kerningAdvances.Length
              && r == scale * font.kerningAdvances[id0 * font.maxGlyphCount + id1]
  {
    var id0, id1 := font.codepointToGlyphID[codepoint0], font.codepointToGlyphID[codepoint1];
    KerningIndexInRange(font.maxGlyphCount, id0, id1);
    RowMajorInRange(font.maxGlyphCount, id0 as nat, id1 as nat);
    scale * font.kerningAdvances[KerningIndex(font.maxGlyphCount, id0, id1)]
  }

  /**
   * Kerning written by `end_load_font` at `i * max + j` is what
   * `get_glyph_kerning` reads back at `id0 * max + id1`: for two registered
   * codepoints the lookup yields the font's kerning of exactly that pair.
   */
  lemma KerningRoundTrip(font: FontAsset, fontScale: real, kern: (u32, u32) -> int,
                         scale: real, codepoint0: nat, codepoint1: nat)
    requires font.Valid() && font.KerningFilled(fontScale, kern)
    requires font.Registered(codepoint0) && font.Registered(codepoint1)
    ensures GlyphKerning(font, scale, codepoint0, codepoint1)
         == scale * (fontScale * kern(codepoint0, codepoint1) as real)
  {
    var id0, id1 := font.codepointToGlyphID[codepoint0], font.codepointToGlyphID[codepoint1];
    var glyphs := font.glyphAssets[..];
    assert KerningIndex(|glyphs|, id0, id1) < font.kerningAdvances.Length;
    assert glyphs[id0].unicodeCodepoint == codepoint0 && glyphs[id1].unicodeCodepoint == codepoint1;
  }

  /** `LoadFontInfo`: the font being loaded, its scale and the number of glyphs added so far. */
  class LoadFontInfo {
    const font: FontAsset
    const fontScale: real
    var populatedGlyphCount: nat

    ghost predicate Valid()
      reads this, font
    {
      font.Valid() && populatedGlyphCount <= font.maxGlyphCount
    }

    constructor (font: FontAsset, fontScale: real)
      requires font.Valid()
      ensures Valid() && this.font == font && this.fontScale == fontScale
      ensures populatedGlyphCount == 0
    {
      this.font := font;
      this.fontScale := fontScale;
      populatedGlyphCount := 0;
    }

    /**
     * `add_glyph_asset`, table side: the next sequential glyph ID (a `u16`)
     * is assigned to `codepoint` in the codepoint table and its glyph records
     * the codepoint and its metrics scaled by the font scale.  `leftBearing`
     * and `xAdvance` are the font library's unscaled metrics.  The capacity
     * assertion is the precondition.
     */
    method AddGlyphAsset(codepoint: u32, leftBearing: int, xAdvance: int) returns (glyphID: u16)
      requires Valid()
      requires populatedGlyphCount + 1 <= font.maxGlyphCount
      requires codepoint < font.codepointToGlyphID.Length
      modifies this`populatedGlyphCount, font.codepointToGlyphID, font.glyphAssets
      ensures Valid()
      ensures glyphID == ToU16(old(populatedGlyphCount))
      ensures populatedGlyphCount == old(populatedGlyphCount) + 1
      ensures font.codepointToGlyphID[..] == old(font.codepointToGlyphID[..])[codepoint := glyphID]
      ensures font.glyphAssets[..] == old(font.glyphAssets[..])[glyphID :=
                GlyphAsset(codepoint, fontScale * leftBearing as real, fontScale * xAdvance as real)]
      ensures font.Registered(codepoint)
    {
      glyphID := ToU16(populatedGlyphCount);
      populatedGlyphCount := populatedGlyphCount + 1;
      font.codepointToGlyphID[codepoint] := glyphID;
      font.glyphAssets[glyphID] := GlyphAsset(codepoint, fontScale * leftBearing as real, fontScale * xAdvance as real);
    }

    /**
     * `end_load_font`: fills the kerning table, row `i` and column `j` holding
     * the scaled kerning of glyphs `i` and `j`.  When the table's index range
     * exceeds `u32` the slots wrap and later pairs overwrite earlier ones, so
     * the full table is promised only for fonts whose `max * max` fits.
     */
    method EndLoadFont(kern: (u32, u32) -> int)
      requires Valid()
      modifies font.kerningAdvances
      ensures Valid()
      ensures KerningTableFits(font.maxGlyphCount) ==> font.KerningFilled(fontScale, kern)
    {
      var max := font.maxGlyphCount;
      ghost var glyphs := font.glyphAssets[..];
      var i := 0;
      while i < max
        invariant 0 <= i <= max
        invariant KerningTableFits(max) ==> FilledUpTo(font.kerningAdvances[..], glyphs, fontScale, kern, i, 0)
      {
        FillKerningRow(kern, i);
        if KerningTableFits(max) {
          RowFilled(font.kerningAdvances[..], glyphs, fontScale, kern, i);
        }
        i := i + 1;
      }
    }

    /** The inner loop of `end_load_font`: the kerning slots of glyph `i` against every glyph, in order. */
    method FillKerningRow(kern: (u32, u32) -> int, i: nat)
      requires Valid() && i < font.maxGlyphCount
      requires KerningTableFits(font.maxGlyphCount) ==>
                 FilledUpTo(font.kerningAdvances[..], font.glyphAssets[..], fontScale, kern, i, 0)
      modifies font.kerningAdvances
      ensures Valid()
      ensures KerningTableFits(font.maxGlyphCount) ==>
                FilledUpTo(font.kerningAdvances[..], font.glyphAssets[..], fontScale, kern, i, font.maxGlyphCount)
    {
      var max := font.maxGlyphCount;
      ghost var glyphs := font.glyphAssets[..];
      var j := 0;
      while j < max
        invariant 0 <= j <= max
        invariant KerningTableFits(max) ==> FilledUpTo(font.kerningAdvances[..], glyphs, fontScale, kern, i, j)
      {
        var codepoint0 := font.glyphAssets[i].unicodeCodepoint;
        var codepoint1 := font.glyphAssets[j].unicodeCodepoint;
        var kerning := fontScale * kern(codepoint0, codepoint1) as real;
        KerningIndexInRange(max, i, j);
        var slot := KerningIndex(max, i, j);
        if KerningTableFits(max) {
          FilledStep(font.kerningAdvances[..], glyphs, fontScale, kern, i, j);
        }
        font.kerningAdvances[slot] := kerning;
        j := j + 1;
      }
    }
  }
}
