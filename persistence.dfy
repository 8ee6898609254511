/**
 * `saveDirtyChunks`: writes every dirty cached chunk of a world to its own
 * file and marks it clean. It lives with the chunk-file naming in
 * `WorldStorage.java`; it is a separate module here because it needs the
 * world, and the world needs the chunk loader.
 */
module Persistence {
  import opened JavaTypes
  import opened Chunks
  import opened Files
  import opened WorldInfos
  import opened WorldStorage
  import opened Worlds
  import opened ChunkCodec

  /** The naming of chunk files in a world, as a function of the chunk. */
  ghost function ChunkFiles(info: WorldInfo): ChunkPos -> Path
  {
    (p: ChunkPos) => ChunkFile(info, p.x, p.y, p.z)
  }

  ghost predicate Injective(name: ChunkPos -> Path)
  {
    forall p, q :: name(p) == name(q) ==> p == q
  }

  lemma ChunkFilesInjective(info: WorldInfo)
    ensures Injective(ChunkFiles(info))
  {
    forall p, q | ChunkFiles(info)(p) == ChunkFiles(info)(q)
      ensures p == q
    {
      ChunkFileInjective(info, p.x, p.y, p.z, q.x, q.y, q.z);
    }
  }

  /** The files of the chunks in `keys`. */
  ghost function FilesOf(name: ChunkPos -> Path, keys: set<ChunkPos>): set<Path>
  {
    set p | p in keys :: name(p)
  }

  /** Under an injective naming, a chunk outside `keys` does not share its file
      with any chunk in `keys`. */
  lemma FileOutside(name: ChunkPos -> Path, keys: set<ChunkPos>, q: ChunkPos)
    requires Injective(name) && q !in keys
    ensures name(q) !in FilesOf(name, keys)
  {
  }

  /** The file that `name` gives chunk `p` holds the encoding of `cells`. */
  ghost predicate HoldsChunk(files: map<Path, seq<Byte>>, name: ChunkPos -> Path, p: ChunkPos, cells: seq<Short>)
  {
    name(p) in files && files[name(p)] == ChunkBytes(p.x, p.y, p.z, cells)
  }

  /** The file of chunk `p` holds that chunk's current encoding. */
  ghost predicate Saved(w: World, p: ChunkPos)
    requires w.Valid() && p in w.chunks
    reads w, w.disk, w.chunks[p].blocks
  {
    var f := ChunkFile(w.info, p.x, p.y, p.z);
    f in w.disk.files && w.disk.files[f] == ChunkBytes(p.x, p.y, p.z, w.chunks[p].Cells())
  }

  /** One step of `saveDirtyChunks`: a dirty chunk is written to its file and,
      when the write succeeds, marked clean; a clean chunk is left alone. */
  method SaveEntry(disk: FileStore, file: Path, p: ChunkPos, c: Chunk) returns (ok: bool)
    requires c.Valid()
    modifies disk, c
    ensures disk.unreadable == old(disk.unreadable) && disk.unwritable == old(disk.unwritable)
    ensures c.dirty == (old(c.dirty) && !ok)
    ensures !old(c.dirty) ==> ok && disk.files == old(disk.files)
    ensures old(c.dirty) ==> (ok <==> file !in disk.unwritable)
    ensures ok && old(c.dirty) ==> file in disk.files && disk.files[file] == ChunkBytes(p.x, p.y, p.z, c.Cells())
    ensures forall f :: f != file ==>
              (f in disk.files <==> f in old(disk.files)) && (f in disk.files ==> disk.files[f] == old(disk.files[f]))
  {
    ok := true;
    if c.IsDirty() {
      ok := Save(disk, file, p.x, p.y, p.z, c);
      if ok {
        c.ClearDirty();
      }
    }
  }

  /** File `f` is the same in both file maps: present in both with the same
      contents, or absent from both. */
  ghost predicate SameFile(files: map<Path, seq<Byte>>, files0: map<Path, seq<Byte>>, f: Path)
  {
    (f in files <==> f in files0) && (f in files ==> files[f] == files0[f])
  }

  /** The disk side of what holds between two steps of `saveDirtyChunks`:
      `dirty0` are the chunks that were dirty at the start, `cleaned` those of
      them saved so far, `touched` the files written so far, `files0` the files
      at the start and `cells0` the cells of the cached chunks. */
  ghost predicate DiskProgress(files: map<Path, seq<Byte>>, unwritable: set<Path>, name: ChunkPos -> Path,
                               dirty0: set<ChunkPos>, cleaned: set<ChunkPos>, touched: set<Path>, ok: bool,
                               files0: map<Path, seq<Byte>>, cells0: map<ChunkPos, seq<Short>>)
  {
    && cleaned <= dirty0
    && (forall p :: p in cleaned ==> p in cells0 && HoldsChunk(files, name, p, cells0[p]))
    && touched <= FilesOf(name, dirty0)
    && (!ok ==> exists p :: p in dirty0 && name(p) in unwritable)
    && (forall f :: f !in touched ==> SameFile(files, files0, f))
    && (touched == {} ==> files == files0)
  }

  /** The cache side: the dirty flags of the cached chunks. */
  ghost predicate FlagProgress(w: World, dirty0: set<ChunkPos>, cleaned: set<ChunkPos>, todo: set<ChunkPos>, ok: bool)
    reads w, w.Objects()
  {
    && w.Valid() && todo <= w.chunks.Keys && dirty0 <= w.chunks.Keys && cleaned !! todo
    && (forall p :: p in w.chunks ==> w.chunks[p].dirty == (p in dirty0 && p !in cleaned))
    && (ok ==> forall p :: p in dirty0 && p !in todo ==> p in cleaned)
  }

  /** Saving chunk `p` (writing its file when the chunk was dirty) keeps the disk side. */
  lemma DiskStep(files: map<Path, seq<Byte>>, files': map<Path, seq<Byte>>, unwritable: set<Path>,
                 name: ChunkPos -> Path, dirty0: set<ChunkPos>, cleaned: set<ChunkPos>, touched: set<Path>,
                 files0: map<Path, seq<Byte>>, cells0: map<ChunkPos, seq<Short>>,
                 p: ChunkPos, wasDirty: bool, ok: bool)
    requires Injective(name)
    requires DiskProgress(files, unwritable, name, dirty0, cleaned, touched, true, files0, cells0)
    requires p !in cleaned && p in cells0
    requires wasDirty ==> p in dirty0 && (ok <==> name(p) !in unwritable)
    requires !wasDirty ==> ok && files' == files
    requires ok && wasDirty ==> name(p) in files' && files'[name(p)] == ChunkBytes(p.x, p.y, p.z, cells0[p])
    requires forall f :: f != name(p) ==> (f in files' <==> f in files) && (f in files' ==> files'[f] == files[f])
    ensures DiskProgress(files', unwritable, name, dirty0,
                         if wasDirty && ok then cleaned + {p} else cleaned,
                         if wasDirty then touched + {name(p)} else touched, ok, files0, cells0)
  {
    if wasDirty {
      forall q | q in cleaned
        ensures HoldsChunk(files', name, q, cells0[q])
      {
        assert name(q) != name(p);
      }
      assert name(p) in FilesOf(name, dirty0);
    }
  }

  /** One pass of the loop of `saveDirtyChunks`, on chunk `p`. */
  method SaveStep(w: World, p: ChunkPos, ghost name: ChunkPos -> Path,
                  ghost dirty0: set<ChunkPos>, ghost cleaned: set<ChunkPos>, ghost touched: set<Path>,
                  todo: set<ChunkPos>, ghost files0: map<Path, seq<Byte>>, ghost cells0: map<ChunkPos, seq<Short>>)
    returns (ok: bool, ghost cleaned': set<ChunkPos>, ghost touched': set<Path>)
    requires name == ChunkFiles(w.info) && Injective(name)
    requires p in todo && FlagProgress(w, dirty0, cleaned, todo, true)
    requires DiskProgress(w.disk.files, w.disk.unwritable, name, dirty0, cleaned, touched, true, files0, cells0)
    requires p in cells0 && w.chunks[p].Cells() == cells0[p]
    modifies w.disk, w.chunks[p]
    ensures w.chunks == old(w.chunks)
    ensures forall q :: q in w.chunks ==> w.chunks[q].Cells() == old(w.chunks[q].Cells())
    ensures w.disk.unreadable == old(w.disk.unreadable) && w.disk.unwritable == old(w.disk.unwritable)
    ensures FlagProgress(w, dirty0, cleaned', todo - {p}, ok)
    ensures DiskProgress(w.disk.files, w.disk.unwritable, name, dirty0, cleaned', touched', ok, files0, cells0)
  {
    var c := w.chunks[p];
    var file := ChunkFile(w.info, p.x, p.y, p.z);
    assert file == name(p);
    ghost var wasDirty := c.dirty;
    ghost var files1 := w.disk.files;
    ok := SaveEntry(w.disk, file, p, c);
    DiskStep(files1, w.disk.files, w.disk.unwritable, name, dirty0, cleaned, touched, files0, cells0, p, wasDirty, ok);
    cleaned' := if wasDirty && ok then cleaned + {p} else cleaned;
    touched' := if wasDirty then touched + {file} else touched;
    forall q | q in w.chunks && q != p
      ensures w.chunks[q].dirty == old(w.chunks[q].dirty)
    {
      assert w.chunks[q] != c;
    }
  }

  /** What `saveDirtyChunks` promises about the dirty flags: nothing becomes
      dirty; a chunk that turned clean has its encoding in its file; a normal
      return leaves every chunk clean; a failure is a failed write of a chunk
      that was dirty. */
  twostate predicate FlagsAfterSave(w: World, ok: bool)
    reads w, w.Objects(), w.Arrays(), w.disk
  {
    && w.Valid() && w.chunks == old(w.chunks)
    && (forall p :: p in w.chunks && w.chunks[p].dirty ==> old(w.chunks[p].dirty))
    && (forall p :: p in w.chunks && old(w.chunks[p].dirty) && !w.chunks[p].dirty ==> Saved(w, p))
    && (ok ==> forall p :: p in w.chunks ==> !w.chunks[p].dirty)
    && (!ok ==> exists p :: p in w.chunks && old(w.chunks[p].dirty) && ChunkFile(w.info, p.x, p.y, p.z) in w.disk.unwritable)
  }

  /** What `saveDirtyChunks` promises about the files: only the files of chunks
      that were dirty may differ, and with no dirty chunk nothing is written. */
  twostate predicate FilesAfterSave(w: World, ok: bool)
    reads w, w.disk
  {
    && w.chunks == old(w.chunks)
    && (forall f :: !SameFile(w.disk.files, old(w.disk.files), f) ==>
          exists p :: p in w.chunks && old(w.chunks[p].dirty) && f == ChunkFile(w.info, p.x, p.y, p.z))
    && ((forall p :: p in w.chunks ==> !old(w.chunks[p].dirty)) ==> ok && w.disk.files == old(w.disk.files))
  }

  /** What the world shows is the same in both states. */
  twostate predicate ViewKept(w: World)
    reads w, w.Objects(), w.Arrays(), w.disk
  {
    old(w.Valid()) && w.Valid() && forall q :: w.CellsOf(q) == old(w.CellsOf(q))
  }

  /** `saveDirtyChunks(world)`. The cached chunks are visited in an order the
      model leaves open, as a `HashMap` does. A chunk is marked clean right
      after its own write succeeds; the first failed write ends the call with
      `false`, standing for the `IOException` that propagates. */
  method SaveDirtyChunks(w: World) returns (ok: bool)
    requires w.Valid()
    modifies w.disk, w.Objects()
    ensures w.Valid()
    ensures w.disk.unreadable == old(w.disk.unreadable) && w.disk.unwritable == old(w.disk.unwritable)
    ensures FlagsAfterSave(w, ok)
    ensures FilesAfterSave(w, ok)
    ensures ViewKept(w)
  {
    ghost var run;
    ok, run := SaveLoop(w);
    FlagsOutcome(run);
    FilesOutcome(run);
    ViewOutcome(run);
  }

  /** The loop of `saveDirtyChunks` ended as `run` records: the cache and the
      failure sets are as they were, `dirty0` is the set of chunks that were
      dirty, the cells are unchanged, and both progress predicates hold with
      nothing left to visit on a normal exit. */
  twostate predicate LoopDone(run: SaveRun)
    reads run.w, run.w.Objects(), run.w.Arrays(), run.w.disk
  {
    && run.w.chunks == old(run.w.chunks) && Injective(ChunkFiles(run.w.info))
    && run.w.disk.unreadable == old(run.w.disk.unreadable) && run.w.disk.unwritable == old(run.w.disk.unwritable)
    && (forall p :: p in run.dirty0 <==> p in old(run.w.chunks) && old(run.w.chunks[p].dirty))
    && FlagProgress(run.w, run.dirty0, run.cleaned, run.todo, run.ok) && (run.ok ==> run.todo == {})
    && (forall p :: p in run.w.chunks ==> p in run.cells0 && run.w.chunks[p].Cells() == run.cells0[p] == old(run.w.chunks[p].Cells()))
    && DiskProgress(run.w.disk.files, run.w.disk.unwritable, ChunkFiles(run.w.info), run.dirty0, run.cleaned,
                    run.touched, run.ok, old(run.w.disk.files), run.cells0)
  }

  /** The loop of `saveDirtyChunks`, with the ghost record of what it did. */
  method SaveLoop(w: World) returns (ok: bool, ghost run: SaveRun)
    requires w.Valid()
    modifies w.disk, w.Objects()
    ensures run.w == w && run.ok == ok && LoopDone(run)
  {
    ChunkFilesInjective(w.info);
    ghost var dirty0 := set p | p in w.chunks && w.chunks[p].dirty;
    ghost var cells0 := map p | p in w.chunks :: w.chunks[p].Cells();
    ghost var cleaned, touched, todo;
    ok, cleaned, touched, todo := VisitChunks(w, ChunkFiles(w.info), dirty0, cells0);
    run := SaveRun(w, dirty0, cleaned, touched, todo, ok, cells0);
  }

  /** Visits the cached chunks one at a time until all are visited or a write fails. */
  method VisitChunks(w: World, ghost name: ChunkPos -> Path, ghost dirty0: set<ChunkPos>, ghost cells0: map<ChunkPos, seq<Short>>)
    returns (ok: bool, ghost cleaned: set<ChunkPos>, ghost touched: set<Path>, ghost todo: set<ChunkPos>)
    requires name == ChunkFiles(w.info) && Injective(name)
    requires FlagProgress(w, dirty0, {}, w.chunks.Keys, true)
    requires forall p :: p in w.chunks ==> p in cells0 && w.chunks[p].Cells() == cells0[p]
    modifies w.disk, w.Objects()
    ensures w.chunks == old(w.chunks)
    ensures w.disk.unreadable == old(w.disk.unreadable) && w.disk.unwritable == old(w.disk.unwritable)
    ensures forall p :: p in w.chunks ==> w.chunks[p].Cells() == cells0[p]
    ensures FlagProgress(w, dirty0, cleaned, todo, ok) && (ok ==> todo == {})
    ensures DiskProgress(w.disk.files, w.disk.unwritable, name, dirty0, cleaned, touched, ok, old(w.disk.files), cells0)
  {
    cleaned, touched := {}, {};
    var left := w.chunks.Keys;
    ok := true;
    while ok && left != {}
      invariant w.chunks == old(w.chunks)
      invariant w.disk.unreadable == old(w.disk.unreadable) && w.disk.unwritable == old(w.disk.unwritable)
      invariant forall p :: p in w.chunks ==> w.chunks[p].Cells() == cells0[p]
      invariant FlagProgress(w, dirty0, cleaned, left, ok)
      invariant DiskProgress(w.disk.files, w.disk.unwritable, name, dirty0, cleaned, touched, ok, old(w.disk.files), cells0)
      decreases |left|
    {
      var p :| p in left;
      ok, cleaned, touched := SaveStep(w, p, name, dirty0, cleaned, touched, left, old(w.disk.files), cells0);
      left := left - {p};
    }
    todo := left;
  }

  /** The ghost state of one `saveDirtyChunks` run at the end of its loop: the
      world, the chunks dirty at the start, those saved and marked clean, the
      files written, the chunks not visited, the outcome, and the cells of
      every cached chunk. */
  datatype SaveRun = SaveRun(w: World, dirty0: set<ChunkPos>, cleaned: set<ChunkPos>, touched: set<Path>,
                             todo: set<ChunkPos>, ok: bool, cells0: map<ChunkPos, seq<Short>>)

  /** After the loop of `saveDirtyChunks`: what the flags and the saved files say. */
  lemma SavedOutcome(w: World, dirty0: set<ChunkPos>, cleaned: set<ChunkPos>, touched: set<Path>,
                     todo: set<ChunkPos>, ok: bool, files0: map<Path, seq<Byte>>, cells0: map<ChunkPos, seq<Short>>)
    requires forall p :: p in w.chunks ==> p in cells0 && w.chunks[p].Cells() == cells0[p]
    requires FlagProgress(w, dirty0, cleaned, todo, ok) && (ok ==> todo == {})
    requires DiskProgress(w.disk.files, w.disk.unwritable, ChunkFiles(w.info), dirty0, cleaned, touched, ok, files0, cells0)
    ensures forall p :: p in w.chunks && w.chunks[p].dirty ==> p in dirty0
    ensures forall p :: p in dirty0 && !w.chunks[p].dirty ==> Saved(w, p)
    ensures ok ==> forall p :: p in w.chunks ==> !w.chunks[p].dirty
    ensures !ok ==> exists p :: p in dirty0 && ChunkFile(w.info, p.x, p.y, p.z) in w.disk.unwritable
  {
    forall k | k in cleaned
      ensures Saved(w, k)
    {
      assert HoldsChunk(w.disk.files, ChunkFiles(w.info), k, cells0[k]);
    }
    if !ok {
      var bad :| bad in dirty0 && ChunkFiles(w.info)(bad) in w.disk.unwritable;
      assert ChunkFile(w.info, bad.x, bad.y, bad.z) in w.disk.unwritable;
    }
  }

  /** The flag postconditions of `saveDirtyChunks`, stated against the flags at its start. */
  twostate lemma FlagsOutcome(run: SaveRun)
    requires LoopDone(run)
    ensures FlagsAfterSave(run.w, run.ok)
  {
    SavedOutcome(run.w, run.dirty0, run.cleaned, run.touched, run.todo, run.ok, old(run.w.disk.files), run.cells0);
  }

  /** The file and view postconditions of `saveDirtyChunks`: only the files of
      chunks dirty at the start may differ, and what the world shows is kept. */
  twostate lemma FilesOutcome(run: SaveRun)
    requires LoopDone(run)
    ensures FilesAfterSave(run.w, run.ok)
  {
    var w := run.w;
    forall f | !SameFile(w.disk.files, old(w.disk.files), f)
      ensures exists p :: p in w.chunks && old(w.chunks[p].dirty) && f == ChunkFile(w.info, p.x, p.y, p.z)
    {
      var p :| p in run.dirty0 && f == ChunkFiles(w.info)(p);
    }
    if forall p :: p in w.chunks ==> !old(w.chunks[p].dirty) {
      assert run.dirty0 == {};
    }
  }

  /** The view postcondition of `saveDirtyChunks`: what the world shows at `q`
      depends only on the cache and, for a chunk that is not cached, on its own
      file, and no such file is written. */
  twostate lemma ViewOutcome(run: SaveRun)
    requires old(run.w.Valid()) && LoopDone(run)
    ensures ViewKept(run.w)
  {
    var w := run.w;
    forall q
      ensures w.CellsOf(q) == old(w.CellsOf(q))
    {
      if q !in w.chunks {
        FileOutside(ChunkFiles(w.info), run.dirty0, q);
        DecodedAtSame(w.disk.files, old(w.disk.files), w.disk.unreadable, ChunkFile(w.info, q.x, q.y, q.z), q);
      }
    }
  }

  /** Decoding a file that has the same contents gives the same cells. */
  lemma DecodedAtSame(files: map<Path, seq<Byte>>, files0: map<Path, seq<Byte>>, unreadable: set<Path>, f: Path, q: ChunkPos)
    requires SameFile(files, files0, f)
    ensures DecodedAt(files, unreadable, f, q.x, q.y, q.z) == DecodedAt(files0, unreadable, f, q.x, q.y, q.z)
  {
  }

  /** Saving twice with nothing in between: once the first call returns
      normally, the second one succeeds and writes no file at all. */
  method SaveTwice(w: World) returns (first: bool, second: bool, ghost afterFirst: map<Path, seq<Byte>>)
    requires w.Valid()
    modifies w.disk, w.Objects()
    ensures w.Valid()
    ensures first ==> second && w.disk.files == afterFirst
  {
    first := SaveDirtyChunks(w);
    afterFirst := w.disk.files;
    second := SaveDirtyChunks(w);
  }
}
