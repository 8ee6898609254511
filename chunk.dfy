/**
 * The 16x16x16 block grid that is the unit of generation, storage and
 * dirty tracking.
 */
module Chunks {
  import opened JavaTypes

  /** Side length of a chunk. */
  const S: int := 16

  /** Number of cells in a chunk. */
  const Volume: int := S * S * S

  predicate InChunk(x: int, y: int, z: int)
  {
    0 <= x < S && 0 <= y < S && 0 <= z < S
  }

  /** Position of local cell (x, y, z) in the flat array: y-major, then z, then x. */
  function Idx(x: int, y: int, z: int): (i: int)
    ensures InChunk(x, y, z) ==> 0 <= i < Volume
  {
    (y * S + z) * S + x
  }

  /** Local coordinates of flat position `i`: the inverse of `Idx`. */
  function Unidx(i: int): (int, int, int)
  {
    (i % S, i / (S * S), (i / S) % S)
  }

  lemma IdxInRange(x: int, y: int, z: int)
    requires InChunk(x, y, z)
    ensures 0 <= Idx(x, y, z) < Volume
  {
  }

  /** `Idx` is injective on [0,16)^3 and `Unidx` undoes it. */
  lemma UnidxIdx(x: int, y: int, z: int)
    requires InChunk(x, y, z)
    ensures Unidx(Idx(x, y, z)) == (x, y, z)
  {
    var i := Idx(x, y, z);
    assert i == (y * S + z) * S + x;
    assert i / S == y * S + z;
    assert i % S == x;
    assert (i / S) / S == y;
    assert i / (S * S) == (i / S) / S;
  }

  /** `Idx` is onto [0,4096): every flat position is the index of its own decoding. */
  lemma IdxUnidx(i: int)
    requires 0 <= i < Volume
    ensures InChunk(Unidx(i).0, Unidx(i).1, Unidx(i).2)
    ensures Idx(Unidx(i).0, Unidx(i).1, Unidx(i).2) == i
  {
    var q := i / S;
    assert i == q * S + i % S;
    assert q == (q / S) * S + q % S;
    assert i / (S * S) == q / S;
  }

  /** Two in-range coordinate triples share a flat position only if they are equal. */
  lemma IdxInjective(x: int, y: int, z: int, x': int, y': int, z': int)
    requires InChunk(x, y, z) && InChunk(x', y', z')
    requires Idx(x, y, z) == Idx(x', y', z')
    ensures x == x' && y == y' && z == z'
  {
    UnidxIdx(x, y, z);
    UnidxIdx(x', y', z');
  }

  class Chunk {
    /** The flat cell array, linearised by `Idx`. */
    const blocks: array<Short>
    /** True from construction until a save or a load clears it. */
    var dirty: bool

    predicate Valid()
    {
      blocks.Length == Volume
    }

    /** The cells in linear order, as `raw()` exposes them. */
    function Cells(): (s: seq<Short>)
      reads blocks
      ensures |s| == blocks.Length
    {
      blocks[..]
    }

    /** A new chunk is dirty and all of its cells are 0. */
    constructor ()
      ensures Valid() && fresh(blocks)
      ensures dirty
      ensures forall i :: 0 <= i < Volume ==> blocks[i] == 0
    {
      dirty := true;
      blocks := new Short[Volume](_ => 0);
    }

    function IsDirty(): (d: bool)
      reads this
      ensures d == dirty
    {
      dirty
    }

    method MarkDirty()
      modifies this
      ensures dirty
    {
      dirty := true;
    }

    method ClearDirty()
      modifies this
      ensures !dirty
    {
      dirty := false;
    }

    /** The cell at local (x, y, z); the source does no bounds check, so the
        coordinates must already be in range. */
    function Get(x: int, y: int, z: int): (id: Short)
      requires Valid() && InChunk(x, y, z)
      reads this, blocks
      ensures id == Cells()[Idx(x, y, z)]
    {
      IdxInRange(x, y, z);
      blocks[Idx(x, y, z)]
    }

    /** Writes one cell; leaves every other cell and the dirty flag alone. */
    method Set(x: int, y: int, z: int, id: Short)
      requires Valid() && InChunk(x, y, z)
      modifies blocks
      ensures Get(x, y, z) == id
      ensures forall x', y', z' :: InChunk(x', y', z') && (x', y', z') != (x, y, z) ==>
                Get(x', y', z') == old(Get(x', y', z'))
      ensures Cells() == old(Cells())[Idx(x, y, z) := id]
    {
      IdxInRange(x, y, z);
      blocks[Idx(x, y, z)] := id;
      forall x', y', z' | InChunk(x', y', z') && (x', y', z') != (x, y, z)
        ensures Get(x', y', z') == old(Get(x', y', z'))
      {
        if Idx(x', y', z') == Idx(x, y, z) {
          IdxInjective(x, y, z, x', y', z');
        }
      }
    }
  }
}
