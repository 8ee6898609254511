# 64CuBiX core in Dafny

A model of the simulation core of 64CuBiX, a block-world game written in Java,
with proofs of what each part promises.

- **Chunks.** The world is divided into 16x16x16 chunks of `short` block ids. Each chunk
  is stored y-major, then z, then x, in a flat array of 4096 cells, and carries a dirty
  flag (`chunk.dfy`).
- **Chunk files.** A chunk is saved in a run-length format: a five-int big-endian header
  (`CUBX`, version 1, cx, cy, cz) followed by `(id, run)` pairs. The stream is modelled
  as the bytes `DataOutputStream` writes (`chunk_codec.dfy`).
- **The world.** A world keeps a cache of chunks that only grows. A lookup splits global
  coordinates with `floorDiv`/`floorMod`. A cache miss loads the chunk from its file, or
  generates it when there is no usable file (`world.dfy`).
- **Saving and loading.** Dirty chunks are written to
  `<world>/chunks/c.<cx>.<cy>.<cz>.bin` and marked clean; single chunks are read back
  from those files (`world_storage.dfy`, `persistence.dfy`).
- **The terrain generator.** It classifies a cell against a column's surface height
  (grass, three dirt cells, stone below, water up to level 22). Its triple loop fills a
  chunk, and the 64-bit mixing of its value-noise hash is modelled on `bv64`
  (`world_gen.dfy`).
- **Collision.** There are two variants.
  - `CollisionResolver.stepPlayer` moves an axis-aligned box along x, y, z. It pulls
    each displacement back in front of the solid blocks the moved box overlaps
    (`physics.dfy`, `scan.dfy`, `collision.dfy`).
  - `Player.moveAndCollide` moves along x, z, y and clamps each coordinate just short of
    the solid blocks with a margin `EPS` (`player.dfy`).
- **The mesh builders.** `ChunkBuilder` and `Cube` append four vertices and six indices
  per face to NIO buffers. `BlockTiles` gives the atlas tile of each block (`quads.dfy`,
  `nio_buffers.dfy`, `chunk_builder.dfy`, `cube.dfy`, `block_tiles.dfy`).
- **The menu logic.** It covers the FNV-1a seed hash and the bounded text fields, the
  world list's selection clamp, and the create and delete actions (`game_menu.dfy`,
  `menu_state.dfy`).
- **The game tick.** It applies gravity, then the jump, then the move, then landing;
  the jump key itself is a press-and-auto-repeat state machine (`game.dfy`).

Classes stand for the Java objects whose fields change: `Chunk`, `World`, `FileStore`,
`PlayerPhysicsState`, `Player`, `ChunkBuilder`, `TextBox`, `MenuState`, `GameMenu` and
`Game`. Methods with loops stand for the Java loops. Each method is tied by its
postcondition to a function on values, and the promised properties are proved about that
function.

Some things from outside become parameters or modelled state:

- Floats are exact reals.
- The file system is a map from paths to bytes. It also holds the sets of paths that
  cannot be read or written at the moment.
- The key state and the clock are parameters.
- The surface height is a function of (seed, x, z) to a Java `int` that the generator is given.
- The Java library string functions are a `StringLib` value (`trim`, `isBlank`,
  `parseLong`, `getBytes`, `new String`).

The collision code takes a ghost `view`: it maps every cell to the block `getBlock`
reports there. `getBlock` may grow the chunk cache, but it never changes what any cell
reads as. This lets the loops be specified as folds over the sequence of cells they visit.

Where the code and its design description disagree, the model follows the code:

- `Chunk.set` does not mark the chunk dirty. `World.setBlock` does.
- `stepPlayer` resolves the axes in the order x, y, z.
- A failed save in `saveDirtyChunks` stops the loop, and the exception propagates.
- In `moveAndCollide` the ground test compares the final `pos.y` with itself plus
  `delta.y`, so it reduces to `delta.y < -EPS` (`Players.CollideGround`).

## Model

| member | source | states |
|---|---|---|
| Chunks.Idx | src/main/java/me/cubix/world/chunk/Chunk.java:14-16 | `idx` lays the cells out y-major, then z, then x, and lands in [0, 4096) for in-range coordinates |
| Chunks.IdxInRange | src/main/java/me/cubix/world/chunk/Chunk.java:14-16 | every in-range local coordinate has its flat index in [0, 4096) |
| Chunks.UnidxIdx | src/main/java/me/cubix/world/chunk/Chunk.java:14-16 | decoding the flat index of (x, y, z) gives back (x, y, z) |
| Chunks.IdxUnidx | src/main/java/me/cubix/world/chunk/Chunk.java:14-16 | every flat position in [0, 4096) is the index of an in-range coordinate: the index is onto |
| Chunks.IdxInjective | src/main/java/me/cubix/world/chunk/Chunk.java:14-16 | two in-range coordinates share a flat index only when they are equal |
| Chunks.Chunk.constructor | src/main/java/me/cubix/world/chunk/Chunk.java:5-12 | a new chunk is dirty and all 4096 cells are 0 |
| Chunks.Chunk.Cells | src/main/java/me/cubix/world/chunk/Chunk.java:26 | `raw()` exposes the cells in linear order, one per array slot |
| Chunks.Chunk.IsDirty | src/main/java/me/cubix/world/chunk/Chunk.java:6 | reports the dirty flag |
| Chunks.Chunk.MarkDirty | src/main/java/me/cubix/world/chunk/Chunk.java:7 | the flag is set and the cells are untouched |
| Chunks.Chunk.ClearDirty | src/main/java/me/cubix/world/chunk/Chunk.java:8 | the flag is cleared and the cells are untouched |
| Chunks.Chunk.Get | src/main/java/me/cubix/world/chunk/Chunk.java:18-20 | `get` returns the cell stored at flat index `idx(x, y, z)` of the raw array |
| Chunks.Chunk.Set | src/main/java/me/cubix/world/chunk/Chunk.java:18-24 | `get` at the written cell returns the new id; every other cell and the dirty flag are unchanged |
| ChunkCodec.ReadU16Written | src/main/java/me/cubix/world/chunk/ChunkCodecRLE.java:51 | `readUnsignedShort` returns the value that `writeShort` wrote |
| ChunkCodec.ReadShortWritten | src/main/java/me/cubix/world/chunk/ChunkCodecRLE.java:50 | `readShort` returns the `short` that `writeShort` wrote |
| ChunkCodec.ReadIntWritten | src/main/java/me/cubix/world/chunk/ChunkCodecRLE.java:36-41 | `readInt` returns the `int` that `writeInt` wrote |
| ChunkCodec.IntBytes | src/main/java/me/cubix/world/chunk/ChunkCodecRLE.java:14-18 | `writeInt` puts four bytes |
| ChunkCodec.LeadingRun | src/main/java/me/cubix/world/chunk/ChunkCodecRLE.java:25-26 | the run the inner loop counts is between 1 and 0xFFFF and does not pass the end |
| ChunkCodec.LeadingRunSame | src/main/java/me/cubix/world/chunk/ChunkCodecRLE.java:24-26 | every cell of the run equals its first cell |
| ChunkCodec.LeadingRunMaximal | src/main/java/me/cubix/world/chunk/ChunkCodecRLE.java:26 | the run ends at the end of the cells, at 0xFFFF or at a different cell |
| ChunkCodec.LeadingRunUnique | src/main/java/me/cubix/world/chunk/ChunkCodecRLE.java:25-26 | any count with the inner loop's exit properties is that run |
| ChunkCodec.RleRunsInRange | src/main/java/me/cubix/world/chunk/ChunkCodecRLE.java:21-30 | every recorded run is in [1, 0xFFFF] |
| ChunkCodec.RleExpands | src/main/java/me/cubix/world/chunk/ChunkCodecRLE.java:21-30 | expanding the runs gives back exactly the cells: they cover 4096 cells, each holding its run's id |
| ChunkCodec.RleNeighboursDiffer | src/main/java/me/cubix/world/chunk/ChunkCodecRLE.java:24-26 | with fewer than 0xFFFF cells (4096 in a chunk), consecutive pairs carry different ids |
| ChunkCodec.DecodeRuns | src/main/java/me/cubix/world/chunk/ChunkCodecRLE.java:46-53 | a successful decode fills exactly the cells needed |
| ChunkCodec.DecodeCells | src/main/java/me/cubix/world/chunk/ChunkCodecRLE.java:34-53 | a successful load has read magic 0x43554258, version 1 and the expected coordinates, and has 4096 cells |
| ChunkCodec.DecodeRunsCons | src/main/java/me/cubix/world/chunk/ChunkCodecRLE.java:49-53 | one pair that fits decodes to its run followed by the decode of the rest |
| ChunkCodec.DecodeRunsOfRle | src/main/java/me/cubix/world/chunk/ChunkCodecRLE.java:46-53 | decoding the encoded pairs, with any trailing bytes, gives back the cells |
| ChunkCodec.RoundTrip | src/main/java/me/cubix/world/chunk/ChunkCodecRLE.java:11-57 | loading what `save` wrote, at the same coordinates, gives back the cells |
| ChunkCodec.HeaderFields | src/main/java/me/cubix/world/chunk/ChunkCodecRLE.java:14-18 | the header reads back as magic, version, cx, cy, cz in that order |
| ChunkCodec.Header | src/main/java/me/cubix/world/chunk/ChunkCodecRLE.java:14-18 | the header is 20 bytes |
| ChunkCodec.WrongCoordsRejected | src/main/java/me/cubix/world/chunk/ChunkCodecRLE.java:41-43 | a file saved for one chunk position is refused with a coordinate mismatch for any other |
| ChunkCodec.RleStep | src/main/java/me/cubix/world/chunk/ChunkCodecRLE.java:23-29 | a maximal run found at `i` is the first pair of the encoding of the cells from `i` |
| ChunkCodec.EncodeStep | src/main/java/me/cubix/world/chunk/ChunkCodecRLE.java:23-29 | the outer loop keeps "bytes written + encoding of the rest = whole file" |
| ChunkCodec.Encode | src/main/java/me/cubix/world/chunk/ChunkCodecRLE.java:13-30 | the loop writes the header and then one pair per maximal run: exactly the file bytes of the chunk's cells |
| ChunkCodec.Save | src/main/java/me/cubix/world/chunk/ChunkCodecRLE.java:11-32 | on success, the file holds the encoding and no other file changes; it fails exactly when the file is unwritable; the chunk is only read |
| ChunkCodec.Decode | src/main/java/me/cubix/world/chunk/ChunkCodecRLE.java:36-55 | succeeds exactly when the bytes decode; the new chunk holds the decoded cells and is clean; otherwise the error is the first failed check |
| ChunkCodec.FillRuns | src/main/java/me/cubix/world/chunk/ChunkCodecRLE.java:47-53 | the loop fills the array with the decoded cells, and fails exactly when the stream ends early |
| ChunkCodec.FillRun | src/main/java/me/cubix/world/chunk/ChunkCodecRLE.java:52 | writes `run` copies of the id from `i`, cut off at the end of the array, and leaves the cells before `i` alone |
| ChunkCodec.Load | src/main/java/me/cubix/world/chunk/ChunkCodecRLE.java:34-57 | succeeds exactly when the file exists, is readable and decodes, giving a clean chunk with the decoded cells; a failure is a read error exactly when the file is missing or unreadable, and otherwise the decoder's first failed check (magic, version, coordinates, truncation) |
| Worlds.FloorDiv | src/main/java/me/cubix/world/World.java:57 | the quotient rounded toward minus infinity: q*16 <= a < q*16 + 16 |
| Worlds.FloorMod | src/main/java/me/cubix/world/World.java:58 | the local part is in [0, 16) |
| Worlds.FloorDivMod | src/main/java/me/cubix/world/World.java:57-58 | chunk part * 16 + local part is the coordinate |
| Worlds.FloorSplitUnique | src/main/java/me/cubix/world/World.java:57-58 | any chunk/local pair with the local in [0, 16) that adds up to the coordinate is the floor split |
| Worlds.FloorSplitOfMinusOne | src/main/java/me/cubix/world/World.java:57-58 | -1 is local cell 15 of chunk -1 |
| Worlds.ChunkOf | src/main/java/me/cubix/world/World.java:22 | the chunk `getBlock` addresses is the one whose 16-cell span contains the coordinate on each axis |
| Worlds.LocalIdx | src/main/java/me/cubix/world/World.java:21-27 | the local cell index of a global cell is in [0, 4096) |
| Worlds.LocalIdxInjective | src/main/java/me/cubix/world/World.java:21-27 | two global cells with the same chunk and the same local index are the same cell |
| Worlds.SameChunkSameLocal | src/main/java/me/cubix/world/World.java:21-27 | the same chunk and the same local coordinates mean the same global cell |
| Worlds.World.constructor | src/main/java/me/cubix/world/World.java:16-19 | a new world has an empty cache and the given generator and identity |
| Worlds.World.FirstCells | src/main/java/me/cubix/world/World.java:40-53 | the cells a chunk first enters the cache with: 4096 of them |
| Worlds.World.CellsOf | src/main/java/me/cubix/world/World.java:21-27 | the cells a chunk position reads as: 4096 of them |
| Worlds.World.GetOrCreateChunk | src/main/java/me/cubix/world/World.java:35-54 | on a hit, returns the cached chunk and leaves the cache unchanged; on a miss, adds exactly that key with the stored or generated chunk; what every cell reads as is unchanged |
| Worlds.World.LoadOrGenerate | src/main/java/me/cubix/world/World.java:40-53 | a fresh chunk with the cells stored in its file when one loads, otherwise the generated cells; it is dirty exactly when nothing was loaded |
| Worlds.World.GetBlock | src/main/java/me/cubix/world/World.java:21-27 | returns the cell at the floor-mod local coordinates of the floor-div chunk; the cache grows only by that chunk, and no cell changes what it reads as |
| Worlds.World.SetBlock | src/main/java/me/cubix/world/World.java:29-33 | the addressed cell reads the new id, every other cell is unchanged, the owning chunk is dirty and no other flag changes |
| Worlds.World.WriteCell | src/main/java/me/cubix/world/World.java:31-32 | `set` then `markDirty` on the cached chunk: one cell changes and only that chunk becomes dirty |
| Worlds.World.SetThenGet | src/main/java/me/cubix/world/World.java:21-33 | `getBlock` after `setBlock` at the same global cell returns the written id |
| WorldGeneration.Classify | src/main/java/me/cubix/world/WorldGen.java:37-46 | a cell at or below the surface is grass, dirt or stone, and one above it is water or air, with `height - 3` wrapping as `int` arithmetic |
| WorldGeneration.ClassifyBands | src/main/java/me/cubix/world/WorldGen.java:37-46 | grass exactly at the surface; dirt in the 3 cells below and stone below that (no dirt when `height - 3` wraps); water above the surface up to 22; air above both |
| WorldGeneration.SolidBelowSurface | src/main/java/me/cubix/world/WorldGen.java:37-46 | a generated cell is solid exactly when it is at or below the surface |
| WorldGeneration.Fmix | src/main/java/me/cubix/world/WorldGen.java:84-88 | the three xor-shift-33 steps and two wrapping multiplications by the MurmurHash3 fmix64 constants; 0 is a fixed point |
| WorldGeneration.HashBits | src/main/java/me/cubix/world/WorldGen.java:83-88 | the mixed 64 bits of `hash01` for (seed, x, z), with x and z sign-extended before the wrapping multiplications; at (0, 0) they are the finaliser of the seed |
| WorldGeneration.Hash53 | src/main/java/me/cubix/world/WorldGen.java:90 | the 53-bit value of `hash01` is below 2^53 |
| WorldGeneration.HashAtOrigin | src/main/java/me/cubix/world/WorldGen.java:82-90 | the finaliser maps 0 to 0, so seed 0 hashes lattice point (0, 0) to 0 |
| WorldGeneration.HashSample | src/main/java/me/cubix/world/WorldGen.java:82-90 | the wrapping 64-bit mix at seed 12345 and point (-1, 2), with x sign-extended to `long` |
| WorldGeneration.WorldGen.constructor | src/main/java/me/cubix/world/WorldGen.java:9-11 | the generator keeps its seed |
| WorldGeneration.WorldGen.SampleBlock | src/main/java/me/cubix/world/WorldGen.java:32-47 | `sampleBlock` classifies y against the column height of (seed, x, z): grass at the surface, a solid block below it, water or air above it |
| WorldGeneration.WorldGen.ChunkCells | src/main/java/me/cubix/world/WorldGen.java:13-30 | the chunk's 4096 cells, each the sample at its global coordinate |
| WorldGeneration.WorldGen.GenerateChunk | src/main/java/me/cubix/world/WorldGen.java:13-30 | the triple loop leaves local cell (lx, ly, lz) holding `sampleBlock(cx*16+lx, cy*16+ly, cz*16+lz)` in `int` arithmetic, for every local cell |
| WorldGeneration.SameGeneratorSameChunk | src/main/java/me/cubix/world/WorldGen.java:7-30 | equal seeds (and heights and block ids) give identical chunks |
| WorldGeneration.GlobalCoordinate | src/main/java/me/cubix/world/WorldGen.java:18-26 | when the chunk's base fits in an `int`, the wrapped sum is the true global coordinate |
| WorldGeneration.OneGrassPerColumn | src/main/java/me/cubix/world/WorldGen.java:34-46 | a column of a generated chunk has at most one grass cell |
| WorldGeneration.OneGrassPerGlobalColumn | src/main/java/me/cubix/world/WorldGen.java:13-46 | across all chunks stacked on a column, grass occurs once: two grass cells of the same global column are in the same chunk at the same height |
| WorldGeneration.WrapAddInjective | src/main/java/me/cubix/world/WorldGen.java:18-26 | different local offsets added to the same base give different `int` coordinates |
| WorldStorage.Decimal | src/main/java/me/cubix/world/save/WorldStorage.java:19 | `int` to decimal string: a minus sign exactly for negatives, and no '.' or '/' |
| WorldStorage.Digits | src/main/java/me/cubix/world/save/WorldStorage.java:19 | the decimal digits of a natural number: at least one, all in 0-9 |
| WorldStorage.ParseDigitsOfDigits | src/main/java/me/cubix/world/save/WorldStorage.java:19 | reading the digits of a natural number back in base 10 gives the number |
| WorldStorage.ParseDecimalOfDecimal | src/main/java/me/cubix/world/save/WorldStorage.java:19 | the decimal rendering of an `int` parses back to it |
| WorldStorage.DecimalInjective | src/main/java/me/cubix/world/save/WorldStorage.java:19 | two `int`s with the same decimal rendering are equal |
| WorldStorage.ChunkDir | src/main/java/me/cubix/world/save/WorldStorage.java:14-16 | the world's directory followed by `chunks` |
| WorldStorage.ChunkFileName | src/main/java/me/cubix/world/save/WorldStorage.java:19 | the file name starts with `c.` and ends with `.bin` |
| WorldStorage.ChunkFile | src/main/java/me/cubix/world/save/WorldStorage.java:18-20 | the chunk directory followed by `c.<cx>.<cy>.<cz>.bin` |
| WorldStorage.DotSplit | src/main/java/me/cubix/world/save/WorldStorage.java:19 | a dot-free part followed by a dot is recovered from the concatenation |
| WorldStorage.ChunkFileNameInjective | src/main/java/me/cubix/world/save/WorldStorage.java:19 | different chunk coordinates give different file names |
| WorldStorage.ChunkFileInjective | src/main/java/me/cubix/world/save/WorldStorage.java:18-20 | different chunks of a world are stored in different files |
| WorldStorage.StoredCells | src/main/java/me/cubix/world/save/WorldStorage.java:40-44 | the cells a successful load would produce: 4096 of them |
| WorldStorage.LoadChunkIfExists | src/main/java/me/cubix/world/save/WorldStorage.java:40-44 | no chunk exactly when the file is absent; a chunk exactly when the file loads, holding its cells and clean; otherwise the load's error: a read error exactly for an unreadable file, else the first failed check of the decoder |
| Persistence.ChunkFilesInjective | src/main/java/me/cubix/world/save/WorldStorage.java:18-20 | the naming of chunk files is injective |
| Persistence.SaveEntry | src/main/java/me/cubix/world/save/WorldStorage.java:31-36 | a clean chunk is skipped; a dirty one is written to its file with its own coordinates and becomes clean exactly when the write succeeds; other files are untouched |
| Persistence.DiskStep | src/main/java/me/cubix/world/save/WorldStorage.java:29-37 | one pass of the loop keeps the loop's invariant on the files |
| Persistence.SaveStep | src/main/java/me/cubix/world/save/WorldStorage.java:29-37 | one pass keeps both halves of the loop invariant (flags and files) and changes no cells |
| Persistence.SaveDirtyChunks | src/main/java/me/cubix/world/save/WorldStorage.java:22-38 | only dirty chunks are written, each to its own file; a flag is cleared only after its save; a normal return leaves no chunk dirty; a failure is a failed write of a dirty chunk; keys and cells are unchanged |
| Persistence.SaveLoop | src/main/java/me/cubix/world/save/WorldStorage.java:29-37 | the loop ends with its invariant and all chunks visited, or at a failed write |
| Persistence.VisitChunks | src/main/java/me/cubix/world/save/WorldStorage.java:29-37 | each cached chunk is visited at most once; a failure stops the loop |
| Persistence.SavedOutcome | src/main/java/me/cubix/world/save/WorldStorage.java:29-37 | at the end of the loop: no chunk turned dirty, each chunk cleaned has its encoding in its file, and all are clean when no write failed |
| Persistence.FlagsOutcome | src/main/java/me/cubix/world/save/WorldStorage.java:32-36 | the flag postconditions of `saveDirtyChunks`, against the flags before the call |
| Persistence.FilesOutcome | src/main/java/me/cubix/world/save/WorldStorage.java:32-35 | only files of chunks that were dirty change, and with no dirty chunk nothing is written |
| Persistence.ViewOutcome | src/main/java/me/cubix/world/save/WorldStorage.java:29-37 | every cell reads as before, including cells of chunks not yet cached |
| Persistence.SaveTwice | src/main/java/me/cubix/world/save/WorldStorage.java:32-36 | after a normal return, a second call succeeds and writes no file |
| Files.Path.Resolve | src/main/java/me/cubix/world/save/WorldStorage.java:15 | `resolve(name)` appends one segment |
| Files.FileStore.constructor | src/main/java/me/cubix/world/save/WorldStorage.java:14-20 | a store holds the given files and failure sets |
| Files.FileStore.Exists | src/main/java/me/cubix/world/save/WorldStorage.java:42 | `Files.exists` is "the path has contents" |
| Files.FileStore.Read | src/main/java/me/cubix/world/chunk/ChunkCodecRLE.java:35 | reading succeeds exactly on an existing, readable file and returns its bytes |
| Files.FileStore.Write | src/main/java/me/cubix/world/chunk/ChunkCodecRLE.java:12-13 | writing succeeds exactly on a writable path and replaces only that file |
| Physics.AABB.Moved | src/main/java/me/cubix/phys/AABB.java:6-9 | each axis's faces shift by that axis's offset and the extents are kept |
| Physics.MovedZero | src/main/java/me/cubix/phys/AABB.java:6-9 | moving by zero gives the same box |
| Physics.MovedTwice | src/main/java/me/cubix/phys/AABB.java:6-9 | two moves add up |
| Physics.AabbOf | src/main/java/me/cubix/phys/AABBUtil.java:4-9 | feet at pos.y and `height` tall; `2 halfW` wide and deep, centred on pos in x and z; ordered when halfW and height are non-negative |
| Physics.Clamp32 | src/main/java/me/cubix/phys/PlayerPhysicsState.java:26-32 | the `(int)` cast of a whole `double` saturates at both ends of `int` |
| Physics.Ceil | src/main/java/me/cubix/phys/PlayerPhysicsState.java:31 | `Math.ceil`: the least whole number at or above v |
| Physics.FloorToBlock | src/main/java/me/cubix/phys/PlayerPhysicsState.java:26-28 | within `int` range, the result is at most v and v is below the result plus one |
| Physics.CeilToBlock | src/main/java/me/cubix/phys/PlayerPhysicsState.java:30-32 | within `int` range, the result is below v and v is at most the result plus one |
| Physics.CeilToBlockWraps | src/main/java/me/cubix/phys/PlayerPhysicsState.java:30-32 | below `int` range the saturated cast minus one wraps to `Integer.MAX_VALUE` |
| Physics.PlayerPhysicsState.constructor | src/main/java/me/cubix/phys/PlayerPhysicsState.java:6-12 | at rest at the origin, in the air, half width 0.3, height 1.8 |
| BlockScan.SetComp | src/main/java/me/cubix/phys/CollisionResolver.java:60-73 | replacing one component of a vector leaves the other two alone |
| BlockScan.Line | src/main/java/me/cubix/phys/CollisionResolver.java:48 | the cells the innermost loop visits lie on its line, in range |
| BlockScan.LineHas | src/main/java/me/cubix/phys/CollisionResolver.java:48 | the innermost loop visits every cell of its line |
| BlockScan.Plane | src/main/java/me/cubix/phys/CollisionResolver.java:47-48 | the cells the two inner loops visit lie in their plane, in range |
| BlockScan.PlaneHas | src/main/java/me/cubix/phys/CollisionResolver.java:47-48 | the two inner loops visit every cell of their plane |
| BlockScan.Grid | src/main/java/me/cubix/phys/CollisionResolver.java:46-48 | the cells the triple loop visits lie in its range |
| BlockScan.GridHas | src/main/java/me/cubix/phys/CollisionResolver.java:46-48 | the triple loop visits every cell of its range |
| BlockScan.ViewMap | src/main/java/me/cubix/world/World.java:21-27 | what a world reports at each `int` cell, as one map, which it shows |
| BlockScan.ShowsKept | src/main/java/me/cubix/world/World.java:21-27 | what a world reports depends only on the world, its cell arrays and its store |
| CollisionResolver.Shift | src/main/java/me/cubix/phys/CollisionResolver.java:34 | `box.moved` on one axis: that axis's faces shift by the offset, the others stay |
| CollisionResolver.Min | src/main/java/me/cubix/phys/CollisionResolver.java:56-57 | `Math.min`: at most both and one of them |
| CollisionResolver.Max | src/main/java/me/cubix/phys/CollisionResolver.java:62-64 | `Math.max`: at least both and one of them |
| CollisionResolver.FoldAppend | src/main/java/me/cubix/phys/CollisionResolver.java:46-78 | visiting two runs of cells one after the other is visiting their concatenation |
| CollisionResolver.StepProgress | src/main/java/me/cubix/phys/CollisionResolver.java:50-74 | one iteration never lengthens the allowed displacement in the direction of motion (it may pass zero and push the body back when the box starts inside a solid block); a hit stays a hit and the flags are only set |
| CollisionResolver.FoldProgress | src/main/java/me/cubix/phys/CollisionResolver.java:46-78 | over any number of iterations the allowed displacement never lengthens in the direction of motion, and the hit and ground flags are only set |
| CollisionResolver.StepPushesBack | src/main/java/me/cubix/phys/CollisionResolver.java:54-57 | a unit box already inside the solid cell at the origin, asking for +0.5 on x, is allowed -1: the clamp can pass zero |
| CollisionResolver.FoldGround | src/main/java/me/cubix/phys/CollisionResolver.java:61-66 | `onGround` is set exactly by a hit while moving down the y axis |
| CollisionResolver.FoldHit | src/main/java/me/cubix/phys/CollisionResolver.java:50-74 | starting without a hit, there is a hit exactly when some visited solid cell overlaps the box moved by the allowed displacement so far |
| CollisionResolver.FoldFlush | src/main/java/me/cubix/phys/CollisionResolver.java:54-74 | a displacement that changed puts the leading face flush with the near face of a solid visited cell |
| CollisionResolver.FoldRange | src/main/java/me/cubix/phys/CollisionResolver.java:54-74 | cells between `lo` and `hi` on the axis of travel pull the displacement back no further than their faces |
| CollisionResolver.RowFoldIsFold | src/main/java/me/cubix/phys/CollisionResolver.java:48-77 | the innermost loop folds over its line of cells |
| CollisionResolver.LayerFoldIsFold | src/main/java/me/cubix/phys/CollisionResolver.java:47-77 | the middle loop folds over its plane of cells |
| CollisionResolver.BoxFoldIsFold | src/main/java/me/cubix/phys/CollisionResolver.java:46-78 | the triple loop folds over its grid of cells, y outermost, then z, then x |
| CollisionResolver.ResolveIsBoxFold | src/main/java/me/cubix/phys/CollisionResolver.java:33-78 | an axis's outcome is the triple loop over the scan range of the moved box |
| CollisionResolver.ScanCoords | src/main/java/me/cubix/phys/CollisionResolver.java:37-42 | every scanned cell lies between floor(min) and ceil(max)-1 on every axis and has `int` coordinates |
| CollisionResolver.ScanExact | src/main/java/me/cubix/phys/CollisionResolver.java:37-42 | for a bounded box the scan bounds are the exact floor and ceiling, and the loops end |
| CollisionResolver.ScanCovers | src/main/java/me/cubix/phys/CollisionResolver.java:37-42 | the scan misses no cell that the moved box overlaps in volume |
| CollisionResolver.ScanInView | src/main/java/me/cubix/phys/CollisionResolver.java:49 | every scanned cell is one `getBlock` reports on |
| CollisionResolver.Resolve | src/main/java/me/cubix/phys/CollisionResolver.java:32-83 | the allowed displacement never passes the request; a zero request changes nothing; a hit exactly when the request was cut; ground exactly on a hit moving down |
| CollisionResolver.ResolveHit | src/main/java/me/cubix/phys/CollisionResolver.java:46-78 | a move is cut exactly when some solid cell overlaps the box moved by the allowed displacement at its turn in the scan |
| CollisionResolver.ResolveFlush | src/main/java/me/cubix/phys/CollisionResolver.java:54-74 | a move cut short stops with the leading face flush against a solid cell |
| CollisionResolver.ResolveRange | src/main/java/me/cubix/phys/CollisionResolver.java:37-74 | the move is never pulled back by more than the box's extent plus one |
| CollisionResolver.Visit | src/main/java/me/cubix/phys/CollisionResolver.java:49 | `getBlock` at a scanned cell gives what the world shows there; the cache only grows |
| CollisionResolver.ScanRow | src/main/java/me/cubix/phys/CollisionResolver.java:48-77 | the innermost loop computes its fold, and the loop variables follow the fold's state |
| CollisionResolver.ScanCell | src/main/java/me/cubix/phys/CollisionResolver.java:49-76 | one iteration is one step of the fold: the solid skip, the overlap test, the face clamp, the velocity zeroing and `onGround` |
| CollisionResolver.ScanLayer | src/main/java/me/cubix/phys/CollisionResolver.java:47-77 | the middle loop computes its fold |
| CollisionResolver.ScanBox | src/main/java/me/cubix/phys/CollisionResolver.java:46-78 | the outer loop computes the fold over the whole scan |
| CollisionResolver.ScanAxis | src/main/java/me/cubix/phys/CollisionResolver.java:33-78 | the scan of an axis computes `Resolve` of the box |
| CollisionResolver.CollideAxis | src/main/java/me/cubix/phys/CollisionResolver.java:32-83 | returns the allowed displacement of `Resolve`; zeroes that axis's velocity exactly on a hit; sets `onGround` exactly on a downward hit; leaves the position alone |
| CollisionResolver.MoveOnAxis | src/main/java/me/cubix/phys/CollisionResolver.java:20-29 | one axis of `stepPlayer`: only that coordinate moves, never past the request; a zero request changes nothing; a cut move zeroes that velocity, and a cut downward y move grounds the body |
| CollisionResolver.MoveRange | src/main/java/me/cubix/phys/CollisionResolver.java:20-29 | an axis move shifts the coordinate by at most the request plus the body's size plus one |
| CollisionResolver.MovesScanBounded | src/main/java/me/cubix/phys/CollisionResolver.java:19-29 | for bounded inputs, every axis scans a bounded box, each from the position the earlier axes reached |
| CollisionResolver.SweptBounded | src/main/java/me/cubix/phys/CollisionResolver.java:33-34 | a bounded body moved by a bounded request gives a bounded box |
| CollisionResolver.MovesGround | src/main/java/me/cubix/phys/CollisionResolver.java:17-25 | the body ends on the ground exactly when its y move was downward and was cut |
| CollisionResolver.GroundedStops | src/main/java/me/cubix/phys/CollisionResolver.java:17-25 | a body that ends on the ground was moving down and has lost its vertical speed |
| CollisionResolver.MovesComponents | src/main/java/me/cubix/phys/CollisionResolver.java:19-29 | after the moves, each velocity component is what it was or zero, and no coordinate passes its request |
| CollisionResolver.Put | src/main/java/me/cubix/phys/CollisionResolver.java:9-29 | writing the body's fields leaves what the world shows unchanged |
| CollisionResolver.Advance | src/main/java/me/cubix/phys/CollisionResolver.java:20-29 | `if (d != 0) d = collideAxis(...); pos += d` is `MoveOnAxis` |
| CollisionResolver.StepPlayer | src/main/java/me/cubix/phys/CollisionResolver.java:7-30 | gravity 30 per second, `onGround` reset, then the x, y and z moves in that order, each from the position the earlier ones reached |
| Players.FastFloor | src/main/java/me/cubix/gameplay/Player.java:209-212 | for non-negative values inside `int` range `fastFloor` is the floor |
| Players.FastFloorIsFloor | src/main/java/me/cubix/gameplay/Player.java:209-212 | within `int` range `fastFloor` is the floor |
| Players.FastFloorWraps | src/main/java/me/cubix/gameplay/Player.java:209-212 | below `int` range the saturated cast minus one wraps to `Integer.MAX_VALUE` |
| Players.ColumnClamped | src/main/java/me/cubix/gameplay/Player.java:105-137 | the innermost loop clamps the coordinate by exactly the solid cells of its column |
| Players.SliceClamped | src/main/java/me/cubix/gameplay/Player.java:105-137 | the two inner loops clamp by exactly the solid cells of their slice |
| Players.BoxClamped | src/main/java/me/cubix/gameplay/Player.java:105-199 | the triple loop leaves the coordinate no further than any solid cell's stop, and it is the start or some solid cell's stop |
| Players.BoxClampNoFurther | src/main/java/me/cubix/gameplay/Player.java:105-199 | the clamped coordinate is never past the one clamping started from |
| Players.MoveTo | src/main/java/me/cubix/gameplay/Player.java:80-201 | `moveAxis` with a zero move returns the coordinate unchanged, and otherwise never passes the target in the direction of motion |
| Players.MoveToClamped | src/main/java/me/cubix/gameplay/Player.java:80-201 | a zero move returns the coordinate; otherwise `moveAxis` ends at the target clamped by exactly the solid cells in the scanned range of the moved box |
| Players.BoundedScanEnds | src/main/java/me/cubix/gameplay/Player.java:97-102 | for a bounded box no scan bound is `Integer.MAX_VALUE`, so the loops end |
| Players.MoveToRange | src/main/java/me/cubix/gameplay/Player.java:80-201 | a move lands within the request plus the body's size plus two of the start |
| Players.ScannedNear | src/main/java/me/cubix/gameplay/Player.java:97-199 | a cell in the scanned range stops the coordinate within the body's size plus two of the target |
| Players.StopNear | src/main/java/me/cubix/gameplay/Player.java:116-193 | the same for a cell between the box's faces |
| Players.SolidAt | src/main/java/me/cubix/gameplay/Player.java:203-207 | `isSolid` is "neither air nor water" on what the world shows |
| Players.ClampColumn | src/main/java/me/cubix/gameplay/Player.java:105-137 | the innermost loop computes its clamp |
| Players.ClampSlice | src/main/java/me/cubix/gameplay/Player.java:105-137 | the middle loop computes its clamp |
| Players.ClampBox | src/main/java/me/cubix/gameplay/Player.java:105-199 | the outer loop computes the clamp of the whole range |
| Players.Collide | src/main/java/me/cubix/gameplay/Player.java:43-74 | the x, z, y moves of `moveAndCollide` with a world; a zero delta leaves the position alone and off the ground, and onGround needs a downward delta |
| Players.CollideGround | src/main/java/me/cubix/gameplay/Player.java:68-74 | the ground test holds exactly when `delta.y < -EPS` |
| Players.CollideNoFurther | src/main/java/me/cubix/gameplay/Player.java:43-58 | no coordinate passes its requested move in the direction of motion, and a zero request leaves the coordinate alone |
| Players.CollideScansBounded | src/main/java/me/cubix/gameplay/Player.java:43-58 | for bounded inputs, every move scans a bounded box |
| Players.Player.constructor | src/main/java/me/cubix/gameplay/Player.java:9-26 | at rest at the origin, in the air, gravity 100, jump speed 20, half width 0.3 |
| Players.Player.Place | src/main/java/me/cubix/gameplay/Player.java:46-74 | writing `pos` and `onGround` leaves what the world shows unchanged |
| Players.Player.MoveAxis | src/main/java/me/cubix/gameplay/Player.java:80-201 | the coordinate returned is `MoveTo`: the input for a zero move, and otherwise the target clamped by the solid cells the scan finds |
| Players.Player.Advance | src/main/java/me/cubix/gameplay/Player.java:46-58 | `if (d != 0) pos.a = moveAxis(...)` moves only coordinate `a` |
| Players.Player.MoveAndCollide | src/main/java/me/cubix/gameplay/Player.java:36-75 | with no world it moves freely and ends in the air; with one, it makes the x, z and y moves in that order and the ground test, and leaves the velocity alone |
| BlockTiles.TileFor | src/main/java/me/cubix/gfx/model/BlockTiles.java:7-15 | the tile is in [-1, 3], and it is -1 exactly for the ids other than stone, dirt, grass and water |
| BlockTiles.TilesOfBlocks | src/main/java/me/cubix/gfx/model/BlockTiles.java:8-13 | stone 0, dirt 1, grass 2, water 3, air -1 |
| BlockTiles.TileDeterminesBlock | src/main/java/me/cubix/gfx/model/BlockTiles.java:8-12 | the listed ids get pairwise distinct tiles |
| JavaTypes.Wrap32 | src/main/java/me/cubix/world/WorldGen.java:18-26 | `int` arithmetic keeps the value mod 2^32 and leaves in-range values alone |
| JavaTypes.JDiv | src/main/java/me/cubix/gfx/model/ChunkBuilder.java:31-34 | Java `/` rounds toward zero; for non-negative operands it is floor division |
| JavaTypes.IntDiv | src/main/java/me/cubix/gfx/model/ChunkBuilder.java:31-34 | `int / int`, with the one overflowing quotient wrapped |
| JavaTypes.JRem | src/main/java/me/cubix/gfx/model/ChunkBuilder.java:33 | Java `%` takes the dividend's sign and is smaller than the divisor in magnitude |
| JavaTypes.JDivRem | src/main/java/me/cubix/gfx/model/ChunkBuilder.java:33-34 | quotient times divisor plus remainder is the dividend |
| JavaTypes.JDivRounds | src/main/java/me/cubix/gfx/model/ChunkBuilder.java:33-34 | -7 / 2 is -3 and -7 % 2 is -1 |
| NioBuffers.Buf.Flip | src/main/java/me/cubix/gfx/model/ChunkBuilder.java:70-74 | `flip()` makes what was written the readable part |
| NioBuffers.Allocate | src/main/java/me/cubix/gfx/model/ChunkBuilder.java:23-24 | a new buffer of `n` elements with nothing written |
| NioBuffers.Put | src/main/java/me/cubix/gfx/model/ChunkBuilder.java:66-68 | a chain of puts appends the elements when they fit, and otherwise stops at the limit (`BufferOverflowException`) |
| Quads.TileUv | src/main/java/me/cubix/gfx/model/ChunkBuilder.java:30-36 | the tile's rectangle is `tileSize/atlasSize` wide and tall |
| Quads.TileUvInAtlas | src/main/java/me/cubix/gfx/model/ChunkBuilder.java:30-36 | a tile of the atlas grid has its rectangle at pixel column `(tile % perRow) * tileSize` and row `(tile / perRow) * tileSize`, inside the unit square |
| Quads.TileUvCell | src/main/java/me/cubix/gfx/model/ChunkBuilder.java:30-36 | for non-negative operands u0 and v0 are the column and row times `du` |
| Quads.FaceCorners | src/main/java/me/cubix/gfx/model/ChunkBuilder.java:39-51 | the four corners of each face |
| Quads.FaceCornersOnBlock | src/main/java/me/cubix/gfx/model/ChunkBuilder.java:39-51 | away from the `int` limit, every corner of every face has each coordinate x or x+1 (and likewise y, z), and the +X face lies at x+1 |
| Quads.FaceCornersWrap | src/main/java/me/cubix/gfx/model/ChunkBuilder.java:39 | at the `int` limit `x + 1` wraps round |
| Quads.QuadFloats | src/main/java/me/cubix/gfx/model/ChunkBuilder.java:54-59 | a quad puts 20 floats |
| Quads.QuadRead | src/main/java/me/cubix/gfx/model/ChunkBuilder.java:56-59 | vertex k of those floats is corner k with the k-th corner of the texture rectangle |
| Quads.QuadIndices | src/main/java/me/cubix/gfx/model/ChunkBuilder.java:61-62 | a quad puts 6 indices |
| Quads.QuadIndicesSpan | src/main/java/me/cubix/gfx/model/ChunkBuilder.java:61-62 | the indices are two triangles over exactly the quad's own four vertices, sharing the diagonal vc to vc+2 |
| ChunkBuilders.ChunkBuilder.constructor | src/main/java/me/cubix/gfx/model/ChunkBuilder.java:19-25 | empty buffers of `maxFaces*20` floats and `maxFaces*6` ints, no vertices |
| ChunkBuilders.ChunkBuilder.PutVertex | src/main/java/me/cubix/gfx/model/ChunkBuilder.java:66-68 | `put` appends x, y, z, u, w |
| ChunkBuilders.ChunkBuilder.Quad | src/main/java/me/cubix/gfx/model/ChunkBuilder.java:54-64 | when a face fits, it appends the quad's 20 floats and its indices vc, vc+1, vc+2, vc, vc+2, vc+3, and adds 4 to the vertex count; when none fits, nothing changes |
| ChunkBuilders.ChunkBuilder.PutCorners | src/main/java/me/cubix/gfx/model/ChunkBuilder.java:57-59 | the last three vertices of a quad |
| ChunkBuilders.ChunkBuilder.PutIndices | src/main/java/me/cubix/gfx/model/ChunkBuilder.java:61-62 | the two index chains |
| ChunkBuilders.ChunkBuilder.AddFace | src/main/java/me/cubix/gfx/model/ChunkBuilder.java:27-52 | nothing for a negative tile or a face outside 0..5; otherwise the quad of that face of block (x, y, z) with the tile's rectangle |
| ChunkBuilders.ChunkBuilder.Build | src/main/java/me/cubix/gfx/model/ChunkBuilder.java:70-74 | both buffers are flipped and returned |
| ChunkBuilders.QuadIndicesBelow | src/main/java/me/cubix/gfx/model/ChunkBuilder.java:61-63 | after a quad every index is below the new vertex count |
| ChunkBuilders.ValidCounts | src/main/java/me/cubix/gfx/model/ChunkBuilder.java:56-67 | 5 floats per vertex, 6 indices per face, at most `maxFaces` faces, every index below the vertex count |
| ChunkBuilders.BuiltMesh | src/main/java/me/cubix/gfx/model/ChunkBuilder.java:70-74 | the built mesh reads back the written vertices and indices, and every index names a vertex |
| Cubes.CubeFace | src/main/java/me/cubix/gfx/model/Cube.java:23-34 | the corners of each face, in the order +X, -X, +Y, -Y, +Z, -Z |
| Cubes.CubeFacesAreBlockFaces | src/main/java/me/cubix/gfx/model/Cube.java:23-34 | the cube's faces are the chunk builder's faces of the block at the origin |
| Cubes.CubeFloats | src/main/java/me/cubix/gfx/model/Cube.java:22-34 | the first `n` faces put 20 floats each |
| Cubes.CubeIndices | src/main/java/me/cubix/gfx/model/Cube.java:22-34 | the first `n` faces put 6 indices each |
| Cubes.CubeVertices | src/main/java/me/cubix/gfx/model/Cube.java:22-34 | vertex 4f+j of the cube is corner j of face f with texture corner j |
| Cubes.CubeFaceUnit | src/main/java/me/cubix/gfx/model/Cube.java:24-34 | every corner of every face has coordinates 0 or 1 |
| Cubes.CubeOnUnit | src/main/java/me/cubix/gfx/model/Cube.java:16-36 | every position coordinate of the built cube is 0 or 1, and all six faces share the one texture rectangle |
| Cubes.CubeIndicesFaces | src/main/java/me/cubix/gfx/model/Cube.java:22-34 | index t of face f is 4f plus the quad pattern, so every index lies in [0, 24) |
| Cubes.Quad | src/main/java/me/cubix/gfx/model/Cube.java:40-51 | appends the quad's floats and the indices vb, vb+1, vb+2, vb, vb+2, vb+3, and returns vb+4 |
| Cubes.PutVertex | src/main/java/me/cubix/gfx/model/Cube.java:53-55 | appends x, y, z, u, w |
| Cubes.Face | src/main/java/me/cubix/gfx/model/Cube.java:22-34 | one of `build`'s six quad calls: face n follows the first n faces |
| Cubes.Build | src/main/java/me/cubix/gfx/model/Cube.java:11-38 | exactly 120 floats (24 vertices) and 36 indices of the six faces with the tile's rectangle, flipped for reading |
| Menus.Fnv | src/main/java/me/cubix/ui/GameMenu.java:271-278 | FNV-1a 64 over UTF-16 code units as a recursion over the string; the empty string hashes to the offset basis |
| Menus.FnvEmpty | src/main/java/me/cubix/ui/GameMenu.java:272 | the hash of the empty string is 0xcbf29ce484222325 |
| Menus.FnvAppend | src/main/java/me/cubix/ui/GameMenu.java:273-276 | appending a code unit performs one more xor-then-multiply round with 0x100000001b3, mod 2^64 |
| Menus.FnvOfA | src/main/java/me/cubix/ui/GameMenu.java:271-278 | the published FNV-1a 64 test value for "a" |
| Menus.Fnv1a64 | src/main/java/me/cubix/ui/GameMenu.java:271-278 | the loop computes FNV-1a over the string's UTF-16 code units |
| Menus.ParseSeed | src/main/java/me/cubix/ui/GameMenu.java:265-269 | 0 for null or blank text; the number when the trimmed text parses as a `long`; otherwise the FNV-1a hash of the trimmed text |
| Menus.ClampLen | src/main/java/me/cubix/ui/GameMenu.java:296-298 | the length clamped into [0, cap-1] |
| Menus.TextBox.constructor | src/main/java/me/cubix/ui/GameMenu.java:19-23 | a zeroed buffer and length 0 |
| Menus.TextBox.PutString | src/main/java/me/cubix/ui/GameMenu.java:286-293 | stores n = min(byte length, cap-1) bytes, a NUL at n, and length n |
| Menus.TextBox.GetString | src/main/java/me/cubix/ui/GameMenu.java:295-303 | decodes exactly the leading bytes, with the length clamped |
| Menus.TextBox.EnsureNullTerminated | src/main/java/me/cubix/ui/GameMenu.java:305-316 | the length is cut to cap-1 when it is past the end (a negative one is kept); a NUL is written at max(len, 0); the text is unchanged |
| Menus.Reselect | src/main/java/me/cubix/ui/GameMenu.java:246-248 | -1 exactly for an empty list; otherwise an index in range; an in-range selection is kept |
| Menus.GameMenu.constructor | src/main/java/me/cubix/ui/GameMenu.java:27-33 | the two fields start with the state's world name and seed text |
| Menus.GameMenu.RefreshWorlds | src/main/java/me/cubix/ui/GameMenu.java:241-252 | on a listing, the list is replaced and the selection clamped; on a failure, the list is left as the failure left it |
| Menus.GameMenu.CreatePressed | src/main/java/me/cubix/ui/GameMenu.java:153-177 | the trimmed name, or the default name when it is empty; the seed from `parseSeed`; on success, back to the world list with the list refreshed; on failure, nothing changes |
| Menus.GameMenu.DeletePressed | src/main/java/me/cubix/ui/GameMenu.java:112-126 | with a selection in range, it becomes the pending deletion and the confirm screen opens; otherwise nothing changes |
| Menus.GameMenu.ConfirmYes | src/main/java/me/cubix/ui/GameMenu.java:197-208 | deletes the pending world if it is in range; unless the deletion fails, the pending deletion is reset to -1 and the world list shows again |
| Menus.GameMenu.ConfirmNo | src/main/java/me/cubix/ui/GameMenu.java:209-212 | the pending deletion is reset to -1 and the world list shows again |
| MenuStates.Units | src/main/java/me/cubix/ui/MenuState.java:15-16 | a string literal as UTF-16 code units |
| MenuStates.MenuState.constructor | src/main/java/me/cubix/ui/MenuState.java:6-19 | main screen, no worlds, no selection (-1), no pending deletion (-1), "New World" and "12345" |
| Games.JumpStep | src/main/java/me/cubix/Game.java:172-201 | a press fires at once and starts both timers; while held, it fires only when 0.35 s have passed since the press and 0.3 s since the last firing, and then restarts the repeat timer; a release clears the flags and does not fire |
| Games.HoldKeeps | src/main/java/me/cubix/Game.java:179-193 | along one hold, the repeat timer never goes back before a firing and the press time never moves past it |
| Games.RepeatSpacing | src/main/java/me/cubix/Game.java:184-192 | with a clock that does not go back, two firings in one hold are at least 0.3 s apart |
| Games.RepeatDelay | src/main/java/me/cubix/Game.java:183-190 | a firing after the first poll of a hold comes at least 0.35 s after the press |
| Games.ScaleBound | src/main/java/me/cubix/Game.java:140-144 | scaling by a time step in [0, 1] keeps a bound |
| Games.TickMoveBounded | src/main/java/me/cubix/Game.java:133-146 | bounded tick inputs give a move that keeps the collision scans bounded |
| Games.Game.constructor | src/main/java/me/cubix/Game.java:21-50 | key released, timers at 0, no world, a new player |
| Games.Game.HasJump | src/main/java/me/cubix/Game.java:172-201 | one poll updates the four fields and returns as `JumpStep` |
| Games.Game.Accelerate | src/main/java/me/cubix/Game.java:133-138 | gravity lowers vel.y; on the ground the jump key is polled, and a firing sets the jump speed and leaves the ground |
| Games.Game.Land | src/main/java/me/cubix/Game.java:148-150 | on the ground a downward vertical speed becomes 0; nothing else changes |
| Games.Game.Tick | src/main/java/me/cubix/Game.java:129-150 | gravity, the jump only when grounded (and the key is polled only then), the move `moveAndCollide` makes with the camera's x and z and vel.y*dt, then landing; a grounded player never keeps a downward speed |

## Left out

- Console output. The `System.out.println` messages of `saveDirtyChunks` (with the counting loop that
  only feeds them) and the
  `printStackTrace` calls of `getOrCreateChunk` and the menu's error handlers are not
  modelled; the model keeps only the control flow around them.
- Float rounding. Every `float` and `double` quantity is an exact real: the
  collision code, the box arithmetic, texture coordinates and the tick's time step.
- The surface height. `fbm2`, `valueNoise2`, `smooth`, `lerp`, the division by 2^53 in
  `hash01` and `Math.floor` of the height are not modelled. The height is a function of
  (seed, x, z) to a Java `int`, the range of the `(int)` cast, given to the generator.
- The block id constants. `BlockId` is not part of this model. Its five `short` constants
  are one `Palette` value, and the lemmas that need them distinct require it.
- `ChunkPos` is not part of this model. It is a triple of `int`s compared by value.
- File I/O. `Files.createDirectories`, opening and closing streams, buffering, and OS
  errors are left out. Which reads and writes fail is given by the store's `unreadable`
  and `unwritable` sets.
  - A failed write leaves that one file in any state: the contract of `FileStore.Write`
    says nothing about that file's contents after a failure.
- The collision loop bounds. The scans end only when no scan bound is
  `Integer.MAX_VALUE`. The models require boxes within 2^30 of the origin
  (`Terminates`, `ScanEnds`). The outer steps require positions and moves within 2^28
  (`StepBounded`, `CollideBounded`, `TickBounded`). Beyond that the Java loops may not end.
- CollisionResolver.CollideAxis: the block `At` reports for a cell without `int`
  coordinates is 0. It is never consulted, since every scanned cell has `int` coordinates.
- Aliasing of `Vector3f`. `pos` and `vel` are `Vector3f` objects in Java and values
  here. The loop of `collideAxis` writes `p.vel` and `p.onGround` as it goes; the model
  writes them once after the scan, which is the same because nothing reads them in
  between.
- The axis as an enum. `collideAxis` and `moveAxis` take the axis as a `char` or as
  separate branches; here it is one `Axis` value. A `moveAxis` axis code outside x, y, z
  is not modelled.
- The empty `if` in `moveAndCollide`. The block at Player.java lines 61-64 does nothing
  and is not modelled.
- ChunkBuilders.ChunkBuilder.constructor: requires 0 <= maxFaces and maxFaces*20 < 2^31.
  A negative or overflowing `maxFaces` makes `createFloatBuffer` throw or wrap.
- ChunkBuilders.ChunkBuilder.AddFace: requires a builder that has not been built. After
  `build()` the buffers are flipped and further puts go into the readable region.
- ChunkBuilders.ChunkBuilder.Build: the returned record shares the builder's buffers in
  Java. Here it is a copy of their values.
- Cubes.Quad: requires room for the quad's 20 floats and 6 indices. `build` always gives
  it room.
- Quads.TileUv: requires `tileSize != 0` and `atlasSize / tileSize != 0`
  (`TilesDefined`). Otherwise Java throws `ArithmeticException`.
- Menus.TextBox.constructor: requires a capacity of at least 1. The menu uses 64.
- Menus.ParseSeed: a `null` input is `None`. The UI never passes `null`.
- The NIO `position` and `limit` of the text-field buffers are not modelled. The helpers
  use absolute `get` and `put`.
- The Java library string functions. `String.trim`, `isBlank`, `isEmpty`,
  `Long.parseLong`, `getBytes` with the platform charset and `new String(bytes)` are
  taken as given functions.
- `WorldInfoStorage` is not part of this model. `createWorld`, `listWorlds` and
  `deleteWorld` are given outcomes: `created`, the `Listing`, `deleted`.
  - A failure of `listWorlds()` after `clear()` leaves the list empty, and that is what
    the model does.
- UI drawing. The Nuklear widgets, `title()`, `draw`, and the options and multiplayer
  screens are not modelled. So is the debug height printout after creating a world
  (GameMenu.java lines 163-172).
- The rest of `Game`. The run loop, window and renderer plumbing, the MENU/PLAY state,
  saving on escape, and the camera are not modelled. The camera's horizontal move, the
  key state and the clock are parameters of `Tick`.
- `MenuState` is a data holder. Only its initial values are modelled.
