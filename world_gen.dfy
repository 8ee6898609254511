/**
 * Terrain generation: the surface height of a column, the classification of
 * a cell against that height, the loop that fills a chunk, and the integer
 * half of the value-noise hash.
 *
 * The surface height is `floor(24 + 18 * fbm2(x * 0.01, z * 0.01, 5))`, a
 * floating-point computation; here it is the function `height` that the
 * generator is given, depending on nothing but (seed, x, z).
 */
module WorldGeneration {
  import opened JavaTypes
  import opened BlockIds
  import opened Chunks

  /** Water fills every non-solid cell at or below this level. */
  const SEA_LEVEL: int := 22
  /** Number of dirt cells between the grass cell and the stone below it. */
  const DIRT_DEPTH: int := 3

  /** The surface height of column (x, z) for a seed: `(int) Math.floor(h)`,
      so a Java `int`. */
  type HeightFn = (bv64, Int32, Int32) -> Int32

  /** `sampleBlock` once the height of the column is known; `height - 3` is
      Java `int` arithmetic and wraps for the three lowest heights. */
  function Classify(pal: Palette, y: Int32, height: Int32): (b: Short)
    ensures y <= height ==> b in {pal.grass, pal.dirt, pal.stone}
    ensures y > height ==> b in {pal.water, pal.air}
  {
    if y > height then
      (if y <= SEA_LEVEL then pal.water else pal.air)
    else if y == height then pal.grass
    else if y >= Wrap32(height - DIRT_DEPTH) then pal.dirt
    else pal.stone
  }

  /** Each of the five blocks occupies exactly the band of heights the
      generator gives it; in particular a column has exactly one grass cell.
      Away from the bottom of the `int` range the dirt band is the three cells
      under the surface; at the bottom `height - 3` wraps and there is none. */
  lemma ClassifyBands(pal: Palette, y: Int32, height: Int32)
    requires pal.Distinct()
    ensures Classify(pal, y, height) == pal.grass <==> y == height
    ensures height - DIRT_DEPTH >= -TWO_31 ==>
      (Classify(pal, y, height) == pal.dirt <==> height - DIRT_DEPTH <= y < height)
    ensures height - DIRT_DEPTH >= -TWO_31 ==>
      (Classify(pal, y, height) == pal.stone <==> y < height - DIRT_DEPTH)
    ensures height - DIRT_DEPTH < -TWO_31 ==>
      (Classify(pal, y, height) == pal.stone <==> y < height) && Classify(pal, y, height) != pal.dirt
    ensures Classify(pal, y, height) == pal.water <==> height < y <= SEA_LEVEL
    ensures Classify(pal, y, height) == pal.air <==> y > height && y > SEA_LEVEL
  {
  }

  /** The generated terrain is solid at exactly the cells at or below the surface. */
  lemma SolidBelowSurface(pal: Palette, y: Int32, height: Int32)
    requires pal.Distinct()
    ensures pal.IsSolid(Classify(pal, y, height)) <==> y <= height
  {
  }

  /** The Java `long` value of an `int`: its two's-complement bits sign-extended to 64. */
  function Widen(x: Int32): bv64
  {
    if x >= 0 then x as bv64 else (x + 0x1_0000_0000_0000_0000) as bv64
  }

  const GOLDEN_X: bv64 := 0x9E37_79B9_7F4A_7C15
  const GOLDEN_Z: bv64 := 0xC2B2_AE3D_27D4_EB4F
  const FMIX_1: bv64 := 0xff51_afd7_ed55_8ccd
  const FMIX_2: bv64 := 0xc4ce_b9fe_1a85_ec53

  /** `h ^= (h >>> 33)`. */
  function ShiftXor(h: bv64): bv64
  {
    h ^ (h >> 33)
  }

  /** The MurmurHash3 64-bit finaliser, as written out in `hash01`;
      `bv64` multiplication wraps modulo 2^64 as Java `long` multiplication does. */
  function Fmix(h: bv64): (r: bv64)
    ensures h == 0 ==> r == 0
  {
    ShiftXor(ShiftXor(ShiftXor(h) * FMIX_1) * FMIX_2)
  }

  /** The 64 mixed bits `hash01` computes for lattice point (x, z). */
  function HashBits(seed: bv64, x: Int32, z: Int32): (r: bv64)
    ensures x == 0 && z == 0 ==> r == Fmix(seed)
  {
    Fmix(seed ^ (Widen(x) * GOLDEN_X) ^ (Widen(z) * GOLDEN_Z))
  }

  /** The 53-bit integer that `hash01` divides by 2^53 to land in [0, 1). */
  function Hash53(seed: bv64, x: Int32, z: Int32): (r: bv64)
    ensures r < 0x20_0000_0000_0000
  {
    (HashBits(seed, x, z) >> 11) & 0x1F_FFFF_FFFF_FFFF
  }

  /** The finaliser maps 0 to 0; for a seed of 0 the lattice origin hashes to 0. */
  lemma HashAtOrigin()
    ensures Fmix(0) == 0 && Hash53(0, 0, 0) == 0
  {
  }

  /** A computed value: seed 12345 at lattice point (-1, 2), where x is
      sign-extended before the multiplication. */
  lemma HashSample()
    ensures HashBits(12345, -1, 2) == 0x1343_f0a2_9f0f_8f33
    ensures Hash53(12345, -1, 2) == 0x2_687e_1453_e1f1
  {
  }

  /** The generator of one world: its seed, block palette and surface height. */
  class WorldGen {
    const seed: bv64
    const pal: Palette
    const height: HeightFn

    constructor (seed: bv64, pal: Palette, height: HeightFn)
      ensures this.seed == seed && this.pal == pal && this.height == height
    {
      this.seed, this.pal, this.height := seed, pal, height;
    }

    /** `sampleBlock(x, y, z)`. */
    function SampleBlock(x: Int32, y: Int32, z: Int32): (b: Short)
      ensures y == height(seed, x, z) ==> b == pal.grass
      ensures y <= height(seed, x, z) ==> b in {pal.grass, pal.dirt, pal.stone}
      ensures y > height(seed, x, z) ==> b in {pal.water, pal.air}
    {
      Classify(pal, y, height(seed, x, z))
    }

    /** The cells of chunk (cx, cy, cz) in linear order: each local cell holds
        the sample at its global coordinates, computed with Java `int` wrap. */
    function ChunkCells(cx: Int32, cy: Int32, cz: Int32): (s: seq<Short>)
      ensures |s| == Volume
      ensures forall i :: 0 <= i < Volume ==> s[i] == CellAt(cx, cy, cz, i)
    {
      seq(Volume, i requires 0 <= i < Volume => CellAt(cx, cy, cz, i))
    }

    function CellAt(cx: Int32, cy: Int32, cz: Int32, i: int): Short
      requires 0 <= i < Volume
    {
      var (lx, ly, lz) := Unidx(i);
      SampleBlock(Wrap32(Wrap32(cx * S) + lx), Wrap32(Wrap32(cy * S) + ly), Wrap32(Wrap32(cz * S) + lz))
    }

    /** `generateChunk`: fills `out` cell by cell; its dirty flag is not touched. */
    method GenerateChunk(cx: Int32, cy: Int32, cz: Int32, out: Chunk)
      requires out.Valid()
      modifies out.blocks
      ensures out.Cells() == ChunkCells(cx, cy, cz)
      ensures forall lx, ly, lz :: InChunk(lx, ly, lz) ==>
                out.Get(lx, ly, lz) == SampleBlock(Wrap32(Wrap32(cx * S) + lx), Wrap32(Wrap32(cy * S) + ly), Wrap32(Wrap32(cz * S) + lz))
    {
      ghost var want := ChunkCells(cx, cy, cz);
      var baseX := Wrap32(cx * S);
      var baseY := Wrap32(cy * S);
      var baseZ := Wrap32(cz * S);
      var ly := 0;
      while ly < S
        invariant 0 <= ly <= S
        invariant Prefix(out.Cells(), want, ly * S * S)
      {
        var y := Wrap32(baseY + ly);
        var lz := 0;
        while lz < S
          invariant 0 <= lz <= S
          invariant Prefix(out.Cells(), want, (ly * S + lz) * S)
        {
          var z := Wrap32(baseZ + lz);
          var lx := 0;
          while lx < S
            invariant 0 <= lx <= S
            invariant Prefix(out.Cells(), want, (ly * S + lz) * S + lx)
          {
            var x := Wrap32(baseX + lx);
            var id := SampleBlock(x, y, z);
            IdxInRange(lx, ly, lz);
            UnidxIdx(lx, ly, lz);
            PrefixStep(out.Cells(), want, Idx(lx, ly, lz), id);
            out.Set(lx, ly, lz, id);
            lx := lx + 1;
          }
          lz := lz + 1;
        }
        ly := ly + 1;
      }
      PrefixAll(out.Cells(), want);
      forall lx, ly, lz | InChunk(lx, ly, lz)
        ensures out.Get(lx, ly, lz) == SampleBlock(Wrap32(Wrap32(cx * S) + lx), Wrap32(Wrap32(cy * S) + ly), Wrap32(Wrap32(cz * S) + lz))
      {
        IdxInRange(lx, ly, lz);
        UnidxIdx(lx, ly, lz);
      }
    }
  }

  /** The first `n` cells of `a` already hold their intended values. */
  ghost predicate Prefix(a: seq<Short>, want: seq<Short>, n: int)
  {
    0 <= n <= |a| && n <= |want| && forall k :: 0 <= k < n ==> a[k] == want[k]
  }

  lemma PrefixStep(a: seq<Short>, want: seq<Short>, n: int, v: Short)
    requires Prefix(a, want, n) && n < |a| && n < |want| && want[n] == v
    ensures Prefix(a[n := v], want, n + 1)
  {
  }

  lemma PrefixAll(a: seq<Short>, want: seq<Short>)
    requires Prefix(a, want, |want|) && |a| == |want|
    ensures a == want
  {
  }

  /** Generation reads nothing but the generator's three constants. */
  lemma SameGeneratorSameChunk(g: WorldGen, g': WorldGen, cx: Int32, cy: Int32, cz: Int32)
    requires g.seed == g'.seed && g.pal == g'.pal && g.height == g'.height
    ensures g.ChunkCells(cx, cy, cz) == g'.ChunkCells(cx, cy, cz)
  {
  }

  /** When the chunk's base coordinate fits in an `int` (as it does for every
      chunk a world addresses), the wrapped global coordinate is the plain sum. */
  lemma GlobalCoordinate(c: Int32, l: int)
    requires 0 <= l < S && -TWO_31 <= c * S && c * S + S <= TWO_31
    ensures Wrap32(Wrap32(c * S) + l) == c * S + l
  {
  }

  /** Every column of a generated chunk has at most one grass cell, at the surface. */
  lemma OneGrassPerColumn(g: WorldGen, cx: Int32, cy: Int32, cz: Int32, lx: int, lz: int, ly: int, ly': int)
    requires g.pal.Distinct() && InChunk(lx, ly, lz) && InChunk(lx, ly', lz)
    requires g.ChunkCells(cx, cy, cz)[Idx(lx, ly, lz)] == g.pal.grass
    requires g.ChunkCells(cx, cy, cz)[Idx(lx, ly', lz)] == g.pal.grass
    ensures ly == ly'
  {
    IdxInRange(lx, ly, lz);
    IdxInRange(lx, ly', lz);
    UnidxIdx(lx, ly, lz);
    UnidxIdx(lx, ly', lz);
    var x := Wrap32(Wrap32(cx * S) + lx);
    var z := Wrap32(Wrap32(cz * S) + lz);
    var y := Wrap32(Wrap32(cy * S) + ly);
    var y' := Wrap32(Wrap32(cy * S) + ly');
    ClassifyBands(g.pal, y, g.height(g.seed, x, z));
    ClassifyBands(g.pal, y', g.height(g.seed, x, z));
    assert y == y';
    WrapAddInjective(Wrap32(cy * S), ly, ly');
  }

  /** A global column has one grass cell across all the chunks stacked on it:
      two chunks over the same (cx, cz) whose bases fit in an `int` hold grass
      at the same local column only in the same chunk and at the same height. */
  lemma OneGrassPerGlobalColumn(g: WorldGen, cx: Int32, cy: Int32, cy': Int32, cz: Int32, lx: int, lz: int, ly: int, ly': int)
    requires g.pal.Distinct() && InChunk(lx, ly, lz) && InChunk(lx, ly', lz)
    requires -TWO_31 <= cy * S && cy * S + S <= TWO_31 && -TWO_31 <= cy' * S && cy' * S + S <= TWO_31
    requires g.ChunkCells(cx, cy, cz)[Idx(lx, ly, lz)] == g.pal.grass
    requires g.ChunkCells(cx, cy', cz)[Idx(lx, ly', lz)] == g.pal.grass
    ensures cy == cy' && ly == ly'
  {
    IdxInRange(lx, ly, lz);
    IdxInRange(lx, ly', lz);
    UnidxIdx(lx, ly, lz);
    UnidxIdx(lx, ly', lz);
    var x := Wrap32(Wrap32(cx * S) + lx);
    var z := Wrap32(Wrap32(cz * S) + lz);
    var y := Wrap32(Wrap32(cy * S) + ly);
    var y' := Wrap32(Wrap32(cy' * S) + ly');
    ClassifyBands(g.pal, y, g.height(g.seed, x, z));
    ClassifyBands(g.pal, y', g.height(g.seed, x, z));
    GlobalCoordinate(cy, ly);
    GlobalCoordinate(cy', ly');
    assert cy * S + ly == cy' * S + ly';
  }

  /** Adding two different offsets below 16 to the same `int` never lands on the same value. */
  lemma WrapAddInjective(b: Int32, l: int, l': int)
    requires 0 <= l < S && 0 <= l' < S
    requires Wrap32(b + l) == Wrap32(b + l')
    ensures l == l'
  {
    var d := Wrap32(b + l) - (b + l);
    var d' := Wrap32(b + l') - (b + l');
    assert d % TWO_32 == 0 && d' % TWO_32 == 0;
    assert l - l' == d' - d;
    assert (d' - d) % TWO_32 == 0;
  }
}
