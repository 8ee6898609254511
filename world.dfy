/**
 * A world: the generator, the world's identity record, the file store it
 * saves into, and the cache of chunks loaded or generated so far. The cache is
 * a map from chunk coordinates to chunks that only ever grows.
 */
module Worlds {
  import opened JavaTypes
  import opened Wrappers
  import opened Chunks
  import opened Files
  import opened WorldInfos
  import opened WorldGeneration
  import opened WorldStorage

  /** Chunk coordinates, compared by value. */
  datatype ChunkPos = ChunkPos(x: Int32, y: Int32, z: Int32)

  /** `Math.floorDiv(a, b)` for a positive divisor: the quotient rounded towards minus infinity. */
  function FloorDiv(a: Int32, b: int): (q: Int32)
    requires b > 0
    ensures q * b <= a < q * b + b
  {
    DivBounds(a, b);
    a / b
  }

  /** `Math.floorMod(a, b)` for a positive divisor. */
  function FloorMod(a: Int32, b: int): (m: int)
    requires b > 0
    ensures 0 <= m < b
  {
    a % b
  }

  lemma DivBounds(a: int, b: int)
    requires b > 0 && -TWO_31 <= a < TWO_31
    ensures -TWO_31 <= a / b < TWO_31
  {
    var q := a / b;
    assert q * b <= a < q * b + b;
    if a >= 0 {
      assert q >= 0;
      MulGrows(q, b);
    } else {
      assert q < 0;
      MulShrinks(q, b);
    }
  }

  lemma MulGrows(q: int, b: int)
    requires q >= 0 && b >= 1
    ensures q <= q * b
  {
  }

  lemma MulShrinks(q: int, b: int)
    requires q < 0 && b >= 1
    ensures q * b <= q
  {
  }

  /** Splitting a coordinate into chunk and local parts loses nothing. */
  lemma FloorDivMod(a: Int32, b: int)
    requires b > 0
    ensures FloorDiv(a, b) * b + FloorMod(a, b) == a
  {
  }

  /** The split is unique: any chunk/local pair that adds up to `a` is the floor split. */
  lemma FloorSplitUnique(a: Int32, c: int, l: int)
    requires 0 <= l < S && c * S + l == a
    ensures c == FloorDiv(a, S) && l == FloorMod(a, S)
  {
    var q := FloorDiv(a, S);
    if c < q {
      assert false;
    } else if c > q {
      assert false;
    }
  }

  /** Just below zero is the last cell of the chunk just below chunk 0. */
  lemma FloorSplitOfMinusOne()
    ensures FloorDiv(-1, S) == -1 && FloorMod(-1, S) == 15
  {
  }

  /** The chunk holding global cell (x, y, z). */
  function ChunkOf(x: Int32, y: Int32, z: Int32): (p: ChunkPos)
    ensures p.x * S <= x < p.x * S + S && p.y * S <= y < p.y * S + S && p.z * S <= z < p.z * S + S
  {
    ChunkPos(FloorDiv(x, S), FloorDiv(y, S), FloorDiv(z, S))
  }

  /** The position of global cell (x, y, z) within its chunk's cell array. */
  function LocalIdx(x: Int32, y: Int32, z: Int32): (i: int)
    ensures 0 <= i < Volume
  {
    IdxInRange(FloorMod(x, S), FloorMod(y, S), FloorMod(z, S));
    Idx(FloorMod(x, S), FloorMod(y, S), FloorMod(z, S))
  }

  /** Two global cells with the same chunk and the same local index are the same cell. */
  lemma LocalIdxInjective(x: Int32, y: Int32, z: Int32, x': Int32, y': Int32, z': Int32)
    requires ChunkOf(x, y, z) == ChunkOf(x', y', z') && LocalIdx(x, y, z) == LocalIdx(x', y', z')
    ensures x == x' && y == y' && z == z'
  {
    IdxInjective(FloorMod(x, S), FloorMod(y, S), FloorMod(z, S), FloorMod(x', S), FloorMod(y', S), FloorMod(z', S));
    SameChunkSameLocal(x, y, z, x', y', z');
  }

  /** Global cells in different chunks, or at different local positions, are different cells. */
  lemma SameChunkSameLocal(x: Int32, y: Int32, z: Int32, x': Int32, y': Int32, z': Int32)
    requires ChunkOf(x, y, z) == ChunkOf(x', y', z')
    requires FloorMod(x, S) == FloorMod(x', S) && FloorMod(y, S) == FloorMod(y', S) && FloorMod(z, S) == FloorMod(z', S)
    ensures x == x' && y == y' && z == z'
  {
    FloorDivMod(x, S); FloorDivMod(x', S);
    FloorDivMod(y, S); FloorDivMod(y', S);
    FloorDivMod(z, S); FloorDivMod(z', S);
  }

  class World {
    var chunks: map<ChunkPos, Chunk>
    const gen: WorldGen
    const info: WorldInfo
    /** The file store `WorldStorage` loads from and saves to. */
    const disk: FileStore

    /** Every cached chunk is well formed, and no two keys share a chunk or a cell array. */
    ghost predicate Valid()
      reads this
    {
      && (forall p :: p in chunks ==> chunks[p].Valid())
      && (forall p, q :: p in chunks && q in chunks && p != q ==>
            chunks[p] != chunks[q] && chunks[p].blocks != chunks[q].blocks)
    }

    /** The cached chunk objects. */
    ghost function Objects(): set<Chunk>
      reads this
    {
      set p | p in chunks :: chunks[p]
    }

    /** The cell arrays of the cached chunks. */
    ghost function Arrays(): set<array<Short>>
      reads this
    {
      set p | p in chunks :: chunks[p].blocks
    }

    /** `new World(seed, info)`: an empty cache. */
    constructor (seed: bv64, pal: BlockIds.Palette, height: HeightFn, info: WorldInfo, disk: FileStore)
      ensures Valid() && chunks == map[]
      ensures gen.seed == seed && gen.pal == pal && gen.height == height
      ensures this.info == info && this.disk == disk
    {
      chunks := map[];
      gen := new WorldGen(seed, pal, height);
      this.info, this.disk := info, disk;
    }

    /** The cells chunk `p` gets when it first enters the cache: those stored
        on disk if they can be read and decoded, the generated ones otherwise. */
    ghost function FirstCells(p: ChunkPos): (s: seq<Short>)
      reads disk
      ensures |s| == Volume
    {
      match StoredCells(disk, info, p.x, p.y, p.z)
      case Some(cells) => cells
      case None => gen.ChunkCells(p.x, p.y, p.z)
    }

    /** The cells of chunk `p` as the world reports them: the cached chunk's
        when there is one, and otherwise what the cache would be filled with. */
    ghost function CellsOf(p: ChunkPos): (s: seq<Short>)
      requires Valid()
      reads this, Arrays(), disk
      ensures |s| == Volume
    {
      if p in chunks then chunks[p].Cells() else FirstCells(p)
    }

    /** The block at global (x, y, z) as `getBlock` reports it. */
    ghost function View(x: Int32, y: Int32, z: Int32): Short
      requires Valid()
      reads this, Arrays(), disk
    {
      CellsOf(ChunkOf(x, y, z))[LocalIdx(x, y, z)]
    }

    /** `getOrCreateChunk(cx, cy, cz)`: the cached chunk if there is one; otherwise
        the stored chunk, or a freshly generated one when there is no stored
        chunk or it cannot be loaded; the new chunk is added to the cache. */
    method GetOrCreateChunk(cx: Int32, cy: Int32, cz: Int32) returns (c: Chunk)
      requires Valid()
      modifies this
      ensures Valid()
      ensures ChunkPos(cx, cy, cz) in chunks && c == chunks[ChunkPos(cx, cy, cz)]
      ensures ChunkPos(cx, cy, cz) in old(chunks) ==> chunks == old(chunks)
      ensures ChunkPos(cx, cy, cz) !in old(chunks) ==>
                && chunks == old(chunks)[ChunkPos(cx, cy, cz) := c]
                && fresh(c) && fresh(c.blocks)
                && c.Cells() == FirstCells(ChunkPos(cx, cy, cz))
                && (c.dirty <==> StoredCells(disk, info, cx, cy, cz).None?)
      ensures forall q :: CellsOf(q) == old(CellsOf(q))
    {
      var p := ChunkPos(cx, cy, cz);
      if p in chunks {
        return chunks[p];
      }
      c := LoadOrGenerate(cx, cy, cz);
      chunks := chunks[p := c];
    }

    /** The miss path of `getOrCreateChunk`: the stored chunk when `loadChunkIfExists`
        returns one, and a generated chunk when it returns null or throws. */
    method LoadOrGenerate(cx: Int32, cy: Int32, cz: Int32) returns (c: Chunk)
      ensures fresh(c) && fresh(c.blocks) && c.Valid()
      ensures c.Cells() == FirstCells(ChunkPos(cx, cy, cz))
      ensures c.dirty <==> StoredCells(disk, info, cx, cy, cz).None?
    {
      var loaded := LoadChunkIfExists(disk, info, cx, cy, cz);
      if loaded.Found? {
        c := loaded.chunk;
      } else {
        c := new Chunk();
        gen.GenerateChunk(cx, cy, cz, c);
      }
    }

    /** The cache after a lookup of `p`: `p` is present, nothing else was added,
        and no entry was replaced. */
    ghost predicate Grew(before: map<ChunkPos, Chunk>, p: ChunkPos)
      reads this
    {
      && p in chunks
      && chunks.Keys == before.Keys + {p}
      && (forall q :: q in before ==> chunks[q] == before[q])
    }

    /** `getBlock(x, y, z)`: fills the cache if needed; what every cell reads as is unchanged. */
    method GetBlock(x: Int32, y: Int32, z: Int32) returns (id: Short)
      requires Valid()
      modifies this
      ensures Valid() && Grew(old(chunks), ChunkOf(x, y, z))
      ensures id == old(View(x, y, z)) && id == View(x, y, z)
      ensures forall q :: CellsOf(q) == old(CellsOf(q))
      ensures forall x': Int32, y': Int32, z': Int32 :: View(x', y', z') == old(View(x', y', z'))
    {
      var p := ChunkOf(x, y, z);
      var c := GetOrCreateChunk(p.x, p.y, p.z);
      var lx, ly, lz := FloorMod(x, S), FloorMod(y, S), FloorMod(z, S);
      id := c.Get(lx, ly, lz);
    }

    /** `setBlock(x, y, z, id)`: the one addressed cell now reads `id`, every other
        cell reads as before, and the owning chunk is dirty. */
    method SetBlock(x: Int32, y: Int32, z: Int32, id: Short)
      requires Valid()
      modifies this, Objects(), Arrays()
      ensures Valid() && Grew(old(chunks), ChunkOf(x, y, z))
      ensures CellsOf(ChunkOf(x, y, z)) == old(CellsOf(ChunkOf(x, y, z)))[LocalIdx(x, y, z) := id]
      ensures forall q :: q != ChunkOf(x, y, z) ==> CellsOf(q) == old(CellsOf(q))
      ensures View(x, y, z) == id
      ensures forall x': Int32, y': Int32, z': Int32 :: (x', y', z') != (x, y, z) ==> View(x', y', z') == old(View(x', y', z'))
      ensures chunks[ChunkOf(x, y, z)].dirty
      ensures forall q :: q in old(chunks) && q != ChunkOf(x, y, z) ==> chunks[q].dirty == old(chunks[q].dirty)
    {
      var p := ChunkOf(x, y, z);
      var c := GetOrCreateChunk(p.x, p.y, p.z);
      WriteCell(p, FloorMod(x, S), FloorMod(y, S), FloorMod(z, S), id);
      forall x': Int32, y': Int32, z': Int32 | (x', y', z') != (x, y, z)
        ensures View(x', y', z') == old(View(x', y', z'))
      {
        if ChunkOf(x', y', z') == p && LocalIdx(x', y', z') == LocalIdx(x, y, z) {
          LocalIdxInjective(x, y, z, x', y', z');
        }
      }
    }

    /** The write half of `setBlock`: `c.set(...)` then `c.markDirty()` on the cached chunk `p`. */
    method WriteCell(p: ChunkPos, lx: int, ly: int, lz: int, id: Short)
      requires Valid() && p in chunks && InChunk(lx, ly, lz)
      modifies chunks[p], chunks[p].blocks
      ensures Valid() && chunks == old(chunks)
      ensures CellsOf(p) == old(CellsOf(p))[Idx(lx, ly, lz) := id]
      ensures forall q :: q != p ==> CellsOf(q) == old(CellsOf(q))
      ensures chunks[p].dirty
      ensures forall q :: q in chunks && q != p ==> chunks[q].dirty == old(chunks[q].dirty)
    {
      var c := chunks[p];
      c.Set(lx, ly, lz, id);
      c.MarkDirty();
    }

    /** A read after a write to the same global cell returns what was written. */
    method SetThenGet(x: Int32, y: Int32, z: Int32, id: Short) returns (r: Short)
      requires Valid()
      modifies this, Objects(), Arrays()
      ensures Valid() && r == id
    {
      SetBlock(x, y, z, id);
      r := GetBlock(x, y, z);
    }
  }
}
