/**
 * The run-length chunk file format.
 *
 * A file is a header of five big-endian 32-bit ints (magic "CUBX", version
 * 1, cx, cy, cz) followed by (short id, short run) pairs, big-endian, whose
 * runs cover the 4096 cells in the chunk's linear order. The stream is
 * modelled as the sequence of bytes `java.io.DataOutputStream` writes.
 */
module ChunkCodec {
  import opened JavaTypes
  import opened Wrappers
  import opened Chunks
  import Files

  const MAGIC: Int32 := 0x43554258
  const VERSION: Int32 := 1
  /** Longest run one pair records. */
  const MAX_RUN: int := 0xFFFF
  /** Header size in bytes: five ints. */
  const HEADER: int := 20

  /** An unsigned 16-bit value, as `readUnsignedShort` returns it. */
  type U16 = x: int | 0 <= x < 0x1_0000

  function Min(a: int, b: int): int
  {
    if a <= b then a else b
  }

  // ---- DataOutputStream / DataInputStream primitives (big-endian) ----

  /** `writeShort` of a value whose low 16 bits are `u`. */
  function U16Bytes(u: U16): (b: seq<Byte>)
    ensures |b| == 2
  {
    [u / 0x100, u % 0x100]
  }

  function ShortBytes(v: Short): (b: seq<Byte>)
    ensures |b| == 2
  {
    U16Bytes(if v < 0 then v + TWO_16 else v)
  }

  /** `writeInt`: the two's-complement bits, high byte first. */
  function IntBytes(v: Int32): (b: seq<Byte>)
    ensures |b| == 4
  {
    var u := if v < 0 then v + TWO_32 else v;
    [u / 0x100_0000, (u / 0x1_0000) % 0x100, (u / 0x100) % 0x100, u % 0x100]
  }

  /** `readUnsignedShort` at offset `at`. */
  function ReadU16(b: seq<Byte>, at: nat): U16
    requires at + 2 <= |b|
  {
    (b[at] as int) * 0x100 + b[at + 1]
  }

  /** `readShort` at offset `at`. */
  function ReadShort(b: seq<Byte>, at: nat): Short
    requires at + 2 <= |b|
  {
    var u := ReadU16(b, at);
    if u >= 0x8000 then u - TWO_16 else u
  }

  /** `readInt` at offset `at`. */
  function ReadInt(b: seq<Byte>, at: nat): Int32
    requires at + 4 <= |b|
  {
    var u := (b[at] as int) * 0x100_0000 + (b[at + 1] as int) * 0x1_0000 + (b[at + 2] as int) * 0x100 + b[at + 3];
    if u >= TWO_31 then u - TWO_32 else u
  }

  lemma ReadU16Written(b: seq<Byte>, at: nat, u: U16)
    requires at + 2 <= |b| && b[at..at + 2] == U16Bytes(u)
    ensures ReadU16(b, at) == u
  {
    assert b[at] == u / 0x100 && b[at + 1] == u % 0x100;
  }

  lemma ReadShortWritten(b: seq<Byte>, at: nat, v: Short)
    requires at + 2 <= |b| && b[at..at + 2] == ShortBytes(v)
    ensures ReadShort(b, at) == v
  {
    ReadU16Written(b, at, if v < 0 then v + TWO_16 else v);
  }

  lemma ReadIntWritten(b: seq<Byte>, at: nat, v: Int32)
    requires at + 4 <= |b| && b[at..at + 4] == IntBytes(v)
    ensures ReadInt(b, at) == v
  {
    var u := if v < 0 then v + TWO_32 else v;
    assert b[at] == u / 0x100_0000;
    assert b[at + 1] == (u / 0x1_0000) % 0x100;
    assert b[at + 2] == (u / 0x100) % 0x100;
    assert b[at + 3] == u % 0x100;
    assert u / 0x1_0000 == (u / 0x100_0000) * 0x100 + (u / 0x1_0000) % 0x100;
    assert u / 0x100 == (u / 0x1_0000) * 0x100 + (u / 0x100) % 0x100;
    assert u == (u / 0x100) * 0x100 + u % 0x100;
  }

  // ---- Runs ----

  /** One payload pair: `len` copies of `id`. */
  datatype Run = Run(id: Short, len: U16)

  function Repeat(v: Short, n: nat): (r: seq<Short>)
    ensures |r| == n && forall k :: 0 <= k < n ==> r[k] == v
  {
    seq(n, _ => v)
  }

  /** The cells a list of runs covers, in order. */
  function Expand(rs: seq<Run>): seq<Short>
  {
    if rs == [] then [] else Repeat(rs[0].id, rs[0].len) + Expand(rs[1..])
  }

  function RunBytes(r: Run): (b: seq<Byte>)
    ensures |b| == 4
  {
    ShortBytes(r.id) + U16Bytes(r.len)
  }

  function RunsBytes(rs: seq<Run>): (b: seq<Byte>)
    ensures |b| == 4 * |rs|
  {
    if rs == [] then [] else RunBytes(rs[0]) + RunsBytes(rs[1..])
  }

  /** Length of the run of equal cells that starts `s`, cut at `MAX_RUN`. */
  function LeadingRun(s: seq<Short>): (n: int)
    requires |s| > 0
    ensures 1 <= n <= |s| && n <= MAX_RUN
  {
    if |s| == 1 || s[1] != s[0] then 1 else Min(1 + LeadingRun(s[1..]), MAX_RUN)
  }

  /** Every cell of the leading run equals the first one. */
  lemma {:induction false} LeadingRunSame(s: seq<Short>)
    requires |s| > 0
    ensures forall k :: 0 <= k < LeadingRun(s) ==> s[k] == s[0]
  {
    if |s| > 1 && s[1] == s[0] {
      LeadingRunSame(s[1..]);
    }
  }

  /** The run is maximal: it stops at the end, at the cap, or at a different cell. */
  lemma {:induction false} LeadingRunMaximal(s: seq<Short>)
    requires |s| > 0
    ensures LeadingRun(s) == |s| || LeadingRun(s) == MAX_RUN || s[LeadingRun(s)] != s[0]
  {
    if |s| == 1 || s[1] != s[0] {
    } else {
      var t := s[1..];
      LeadingRunMaximal(t);
      var m := LeadingRun(t);
      if 1 + m < MAX_RUN && 1 + m < |s| {
        assert t[m] != t[0];
      }
    }
  }

  /** Any count with the three properties of the encoder's inner loop is the leading run. */
  lemma LeadingRunUnique(s: seq<Short>, n: int)
    requires 1 <= n <= |s| && n <= MAX_RUN
    requires forall k :: 0 <= k < n ==> s[k] == s[0]
    requires n == |s| || n == MAX_RUN || s[n] != s[0]
    ensures n == LeadingRun(s)
  {
    LeadingRunMaximal(s);
    LeadingRunSame(s);
    var m := LeadingRun(s);
  }

  /** Greedy run-length encoding of a cell sequence. */
  function Rle(s: seq<Short>): seq<Run>
    decreases |s|
  {
    if |s| == 0 then [] else
      var n := LeadingRun(s);
      [Run(s[0], n)] + Rle(s[n..])
  }

  /** Every run the encoder records has length in [1, 0xFFFF]. */
  lemma {:induction false} RleRunsInRange(s: seq<Short>)
    ensures forall k :: 0 <= k < |Rle(s)| ==> 1 <= Rle(s)[k].len <= MAX_RUN
    decreases |s|
  {
    if |s| > 0 {
      RleRunsInRange(s[LeadingRun(s)..]);
    }
  }

  /** The runs cover the cells exactly: each covered cell holds its run's id,
      and the run lengths add up to the number of cells. */
  lemma {:induction false} RleExpands(s: seq<Short>)
    ensures Expand(Rle(s)) == s
    decreases |s|
  {
    if |s| > 0 {
      var n := LeadingRun(s);
      RleExpands(s[n..]);
      assert Rle(s)[1..] == Rle(s[n..]);
      LeadingRunSame(s);
      SplitAtRun(s, n);
    }
  }

  /** With fewer cells than the cap, no run is ever cut, so neighbouring runs
      carry different ids. */
  lemma {:induction false} RleNeighboursDiffer(s: seq<Short>)
    requires |s| < MAX_RUN
    ensures forall k :: 0 <= k < |Rle(s)| - 1 ==> Rle(s)[k].id != Rle(s)[k + 1].id
    decreases |s|
  {
    if |s| > 0 {
      var n := LeadingRun(s);
      var t := s[n..];
      RleNeighboursDiffer(t);
      LeadingRunMaximal(s);
      assert Rle(s)[1..] == Rle(t);
      if n < |s| {
        assert Rle(t)[0].id == t[0] == s[n];
      }
    }
  }

  // ---- The file layout ----

  function Header(cx: Int32, cy: Int32, cz: Int32): (b: seq<Byte>)
    ensures |b| == HEADER
  {
    IntBytes(MAGIC) + IntBytes(VERSION) + IntBytes(cx) + IntBytes(cy) + IntBytes(cz)
  }

  /** The bytes `save` writes for a chunk with these cells at (cx, cy, cz). */
  function ChunkBytes(cx: Int32, cy: Int32, cz: Int32, cells: seq<Short>): seq<Byte>
  {
    Header(cx, cy, cz) + RunsBytes(Rle(cells))
  }

  datatype CodecError = BadMagic | BadVersion(version: Int32) | CoordMismatch | Truncated

  function Then(prefix: seq<Short>, o: Option<seq<Short>>): Option<seq<Short>>
  {
    match o
    case None => None
    case Some(rest) => Some(prefix + rest)
  }

  /** Reads pairs until `need` cells are filled; the last run is cut off at the
      end of the grid, and running out of bytes first is an error. */
  function DecodeRuns(b: seq<Byte>, need: nat): (r: Option<seq<Short>>)
    ensures r.Some? ==> |r.value| == need
    decreases |b|
  {
    if need == 0 then Some([])
    else if |b| < 4 then None
    else
      var take := Min(ReadU16(b, 2), need);
      Then(Repeat(ReadShort(b, 0), take), DecodeRuns(b[4..], need - take))
  }

  /** What `load` makes of a file's bytes when it expects chunk (ecx, ecy, ecz):
      the 4096 cells, or the reason it throws. Bytes after the grid is full are
      never read. */
  function DecodeCells(b: seq<Byte>, ecx: Int32, ecy: Int32, ecz: Int32): (r: Result<seq<Short>, CodecError>)
    ensures r.Ok? ==> |b| >= HEADER && ReadInt(b, 0) == MAGIC && ReadInt(b, 4) == VERSION
    ensures r.Ok? ==> ReadInt(b, 8) == ecx && ReadInt(b, 12) == ecy && ReadInt(b, 16) == ecz
    ensures r.Ok? ==> |r.value| == Volume
  {
    if |b| < 4 then Err(Truncated)
    else if ReadInt(b, 0) != MAGIC then Err(BadMagic)
    else if |b| < 8 then Err(Truncated)
    else if ReadInt(b, 4) != VERSION then Err(BadVersion(ReadInt(b, 4)))
    else if |b| < HEADER then Err(Truncated)
    else if ReadInt(b, 8) != ecx || ReadInt(b, 12) != ecy || ReadInt(b, 16) != ecz then Err(CoordMismatch)
    else
      match DecodeRuns(b[HEADER..], Volume)
      case None => Err(Truncated)
      case Some(cells) => Ok(cells)
  }

  /** Decoding one pair whose run fits in what is still needed. */
  lemma DecodeRunsCons(r: Run, tail: seq<Byte>, need: nat)
    requires 1 <= r.len <= need
    ensures DecodeRuns(RunBytes(r) + tail, need) == Then(Repeat(r.id, r.len), DecodeRuns(tail, need - r.len))
  {
    var b := RunBytes(r) + tail;
    assert b[0..2] == ShortBytes(r.id);
    assert b[2..4] == U16Bytes(r.len);
    ReadShortWritten(b, 0, r.id);
    ReadU16Written(b, 2, r.len);
    assert b[4..] == tail;
  }

  lemma {:induction false} DecodeRunsOfRle(s: seq<Short>, rest: seq<Byte>)
    ensures DecodeRuns(RunsBytes(Rle(s)) + rest, |s|) == Some(s)
    decreases |s|
  {
    if |s| > 0 {
      var n := LeadingRun(s);
      var t := s[n..];
      var rs := Rle(s);
      assert rs == [Run(s[0], n)] + Rle(t);
      assert rs[0] == Run(s[0], n) && rs[1..] == Rle(t);
      var tail := RunsBytes(Rle(t)) + rest;
      calc {
        RunsBytes(rs) + rest;
        RunBytes(Run(s[0], n)) + RunsBytes(Rle(t)) + rest;
        RunBytes(Run(s[0], n)) + tail;
      }
      DecodeRunsCons(Run(s[0], n), tail, |s|);
      DecodeRunsOfRle(t, rest);
      LeadingRunSame(s);
      SplitAtRun(s, n);
    }
  }

  lemma SplitAtRun(s: seq<Short>, n: int)
    requires 1 <= n <= |s|
    requires forall k :: 0 <= k < n ==> s[k] == s[0]
    ensures Repeat(s[0], n) + s[n..] == s
  {
    assert Repeat(s[0], n) == s[..n];
  }

  /** Round trip: loading what `save` wrote, at the same coordinates, gives back
      the same 4096 cells, whatever follows in the file. */
  lemma RoundTrip(cx: Int32, cy: Int32, cz: Int32, cells: seq<Short>, rest: seq<Byte>)
    requires |cells| == Volume
    ensures DecodeCells(ChunkBytes(cx, cy, cz, cells) + rest, cx, cy, cz) == Ok(cells)
  {
    var b := ChunkBytes(cx, cy, cz, cells) + rest;
    HeaderFields(cx, cy, cz, RunsBytes(Rle(cells)) + rest);
    assert b == Header(cx, cy, cz) + (RunsBytes(Rle(cells)) + rest);
    assert b[HEADER..] == RunsBytes(Rle(cells)) + rest;
    DecodeRunsOfRle(cells, rest);
  }

  /** The header fields read back as written. */
  lemma HeaderFields(cx: Int32, cy: Int32, cz: Int32, tail: seq<Byte>)
    ensures var b := Header(cx, cy, cz) + tail;
      && ReadInt(b, 0) == MAGIC && ReadInt(b, 4) == VERSION
      && ReadInt(b, 8) == cx && ReadInt(b, 12) == cy && ReadInt(b, 16) == cz
  {
    var b := Header(cx, cy, cz) + tail;
    assert b[0..4] == IntBytes(MAGIC);
    assert b[4..8] == IntBytes(VERSION);
    assert b[8..12] == IntBytes(cx);
    assert b[12..16] == IntBytes(cy);
    assert b[16..20] == IntBytes(cz);
    ReadIntWritten(b, 0, MAGIC);
    ReadIntWritten(b, 4, VERSION);
    ReadIntWritten(b, 8, cx);
    ReadIntWritten(b, 12, cy);
    ReadIntWritten(b, 16, cz);
  }

  /** A file saved for one chunk position is refused when loaded for another. */
  lemma WrongCoordsRejected(cx: Int32, cy: Int32, cz: Int32, cells: seq<Short>, ecx: Int32, ecy: Int32, ecz: Int32)
    requires (cx, cy, cz) != (ecx, ecy, ecz)
    ensures DecodeCells(ChunkBytes(cx, cy, cz, cells), ecx, ecy, ecz) == Err(CoordMismatch)
  {
    HeaderFields(cx, cy, cz, RunsBytes(Rle(cells)));
  }

  /** One step of the encoder: a maximal run found at `i` is the first pair of
      the encoding of the rest. */
  lemma RleStep(cells: seq<Short>, i: int, run: int)
    requires 0 <= i < |cells| && 1 <= run <= MAX_RUN && i + run <= |cells|
    requires forall k :: i <= k < i + run ==> cells[k] == cells[i]
    requires i + run == |cells| || run == MAX_RUN || cells[i + run] != cells[i]
    ensures RunsBytes(Rle(cells[i..])) == ShortBytes(cells[i]) + U16Bytes(run) + RunsBytes(Rle(cells[i + run..]))
  {
    var t := cells[i..];
    LeadingRunUnique(t, run);
    assert t[run..] == cells[i + run..];
    assert Rle(t) == [Run(cells[i], run)] + Rle(cells[i + run..]);
  }

  /** The encoder's outer loop keeps "bytes written + encoding of the rest = whole encoding". */
  lemma EncodeStep(out: seq<Byte>, cells: seq<Short>, i: int, run: int, whole: seq<Byte>)
    requires 0 <= i < |cells| && 1 <= run <= MAX_RUN && i + run <= |cells|
    requires forall k :: i <= k < i + run ==> cells[k] == cells[i]
    requires i + run == |cells| || run == MAX_RUN || cells[i + run] != cells[i]
    requires out + RunsBytes(Rle(cells[i..])) == whole
    ensures out + ShortBytes(cells[i]) + U16Bytes(run) + RunsBytes(Rle(cells[i + run..])) == whole
  {
    var a, u, rest := ShortBytes(cells[i]), U16Bytes(run), RunsBytes(Rle(cells[i + run..]));
    RleStep(cells, i, run);
    assert out + (a + u + rest) == whole;
    SeqAssoc(out, a, u, rest);
  }

  lemma SeqAssoc(p: seq<Byte>, a: seq<Byte>, u: seq<Byte>, r: seq<Byte>)
    ensures p + a + u + r == p + (a + u + r)
  {
  }

  lemma EncodeStart(cx: Int32, cy: Int32, cz: Int32, cells: seq<Short>)
    ensures IntBytes(MAGIC) + IntBytes(VERSION) + IntBytes(cx) + IntBytes(cy) + IntBytes(cz)
            + RunsBytes(Rle(cells[0..])) == ChunkBytes(cx, cy, cz, cells)
  {
    assert cells[0..] == cells;
  }

  lemma EncodeEnd(out: seq<Byte>, cells: seq<Short>, whole: seq<Byte>)
    requires out + RunsBytes(Rle(cells[|cells|..])) == whole
    ensures out == whole
  {
    assert cells[|cells|..] == [];
    assert out + [] == out;
  }

  lemma ThenNil(o: Option<seq<Short>>)
    ensures Then([], o) == o
  {
    if o.Some? { assert [] + o.value == o.value; }
  }

  lemma ThenThen(a: seq<Short>, b: seq<Short>, o: Option<seq<Short>>)
    ensures Then(a, Then(b, o)) == Then(a + b, o)
  {
    if o.Some? { assert a + (b + o.value) == (a + b) + o.value; }
  }

  // ---- save and load ----

  /** The encoding loop of `save`: the header, then one pair per maximal run of
      equal cells, each run at most 0xFFFF long. Only reads the chunk. */
  method Encode(cx: Int32, cy: Int32, cz: Int32, c: Chunk) returns (out: seq<Byte>)
    requires c.Valid()
    ensures out == ChunkBytes(cx, cy, cz, c.Cells())
  {
    out := IntBytes(MAGIC) + IntBytes(VERSION) + IntBytes(cx) + IntBytes(cy) + IntBytes(cz);
    ghost var cells := c.Cells();
    ghost var whole := ChunkBytes(cx, cy, cz, cells);
    EncodeStart(cx, cy, cz, cells);
    var total := Volume;
    var i := 0;
    while i < total
      invariant 0 <= i <= total
      invariant out + RunsBytes(Rle(cells[i..])) == whole
      decreases total - i
    {
      var v := c.blocks[i];
      var run := 1;
      while i + run < total && run < MAX_RUN && c.blocks[i + run] == v
        invariant 1 <= run <= MAX_RUN && i + run <= total
        invariant forall k :: i <= k < i + run ==> c.blocks[k] == v
        decreases total - run
      {
        run := run + 1;
      }
      EncodeStep(out, cells, i, run, whole);
      out := out + ShortBytes(v) + U16Bytes(run);
      i := i + run;
    }
    EncodeEnd(out, cells, whole);
  }

  /** `save`: writes the encoding of `c` for (cx, cy, cz) to `file`. The chunk
      itself, including its dirty flag, is not touched. */
  method Save(store: Files.FileStore, file: Files.Path, cx: Int32, cy: Int32, cz: Int32, c: Chunk)
    returns (ok: bool)
    requires c.Valid()
    modifies store
    ensures ok <==> file !in old(store.unwritable)
    ensures ok ==> store.files == old(store.files)[file := ChunkBytes(cx, cy, cz, c.Cells())]
    ensures forall q :: q != file ==> (q in store.files <==> q in old(store.files))
    ensures forall q :: q != file && q in store.files ==> store.files[q] == old(store.files)[q]
    ensures store.unreadable == old(store.unreadable) && store.unwritable == old(store.unwritable)
  {
    var bytes := Encode(cx, cy, cz, c);
    ok := store.Write(file, bytes);
  }

  /** The decoding part of `load`: checks the header against the expected
      coordinates, then fills a new chunk's 4096 cells from the pairs. A loaded
      chunk is clean. */
  method Decode(b: seq<Byte>, ecx: Int32, ecy: Int32, ecz: Int32) returns (r: Result<Chunk, CodecError>)
    ensures r.Ok? <==> DecodeCells(b, ecx, ecy, ecz).Ok?
    ensures r.Err? ==> r.error == DecodeCells(b, ecx, ecy, ecz).error
    ensures r.Ok? ==> && fresh(r.value) && fresh(r.value.blocks) && r.value.Valid()
                      && r.value.Cells() == DecodeCells(b, ecx, ecy, ecz).value
                      && !r.value.dirty
  {
    if |b| < 4 { return Err(Truncated); }
    var magic := ReadInt(b, 0);
    if magic != MAGIC { return Err(BadMagic); }
    if |b| < 8 { return Err(Truncated); }
    var ver := ReadInt(b, 4);
    if ver != VERSION { return Err(BadVersion(ver)); }
    if |b| < HEADER { return Err(Truncated); }
    var cx, cy, cz := ReadInt(b, 8), ReadInt(b, 12), ReadInt(b, 16);
    if cx != ecx || cy != ecy || cz != ecz { return Err(CoordMismatch); }

    var c := new Chunk();
    var ok := FillRuns(b, c.blocks);
    if !ok { return Err(Truncated); }
    c.ClearDirty();
    return Ok(c);
  }

  /** The outer loop of `load`: pairs read from the header's end on fill the
      4096 cells in order; false when the bytes end before the grid is full. */
  method FillRuns(b: seq<Byte>, raw: array<Short>) returns (ok: bool)
    requires |b| >= HEADER && raw.Length == Volume
    modifies raw
    ensures ok <==> DecodeRuns(b[HEADER..], Volume).Some?
    ensures ok ==> raw[..] == DecodeRuns(b[HEADER..], Volume).value
  {
    var total := Volume;
    var i := 0;
    var pos := HEADER;
    ThenNil(DecodeRuns(b[HEADER..], total));
    while i < total
      invariant 0 <= i <= total && HEADER <= pos <= |b|
      invariant DecodeRuns(b[HEADER..], total) == Then(raw[..i], DecodeRuns(b[pos..], total - i))
      decreases |b| - pos
    {
      if |b| - pos < 4 {
        assert DecodeRuns(b[pos..], total - i) == None;
        return false;
      }
      var id := ReadShort(b, pos);
      var run := ReadU16(b, pos + 2);
      ghost var before := raw[..i];
      ghost var need := total - i;
      i := FillRun(raw, i, id, run);
      ghost var k := i - |before|;
      assert k == Min(run, need);
      ghost var next := b[pos..][4..];
      assert next == b[pos + 4..];
      assert ReadShort(b[pos..], 0) == id && ReadU16(b[pos..], 2) == run;
      assert DecodeRuns(b[pos..], need) == Then(Repeat(id, k), DecodeRuns(next, need - k));
      ThenThen(before, Repeat(id, k), DecodeRuns(next, need - k));
      pos := pos + 4;
    }
    assert raw[..] == raw[..total];
    return true;
  }

  /** The inner loop of `load`: `run` copies of `id` from cell `i0` on, cut
      off at the end of the grid. */
  method FillRun(raw: array<Short>, i0: int, id: Short, run: int) returns (i: int)
    requires 0 <= i0 <= raw.Length && 0 <= run
    modifies raw
    ensures i == i0 + Min(run, raw.Length - i0)
    ensures raw[..i] == old(raw[..i0]) + Repeat(id, i - i0)
  {
    i := i0;
    var k := 0;
    while k < run && i < raw.Length
      invariant 0 <= k <= run && i == i0 + k && i <= raw.Length
      invariant raw[..i] == old(raw[..i0]) + Repeat(id, k)
    {
      raw[i] := id;
      i := i + 1;
      k := k + 1;
    }
  }

  datatype LoadError = ReadFailed | Malformed(CodecError)

  /** `load`: reads `file` and decodes it for the expected coordinates. */
  method Load(store: Files.FileStore, file: Files.Path, ecx: Int32, ecy: Int32, ecz: Int32)
    returns (r: Result<Chunk, LoadError>)
    ensures r.Ok? <==> file in store.files && file !in store.unreadable
                       && DecodeCells(store.files[file], ecx, ecy, ecz).Ok?
    ensures r.Ok? ==> && fresh(r.value) && fresh(r.value.blocks) && r.value.Valid()
                      && r.value.Cells() == DecodeCells(store.files[file], ecx, ecy, ecz).value
                      && !r.value.dirty
    ensures r.Err? ==> (r.error == ReadFailed <==> file !in store.files || file in store.unreadable)
    ensures r.Err? && r.error.Malformed? ==>
              file in store.files && r.error == Malformed(DecodeCells(store.files[file], ecx, ecy, ecz).error)
  {
    var bytes := store.Read(file);
    if bytes.Err? { return Err(ReadFailed); }
    var d := Decode(bytes.value, ecx, ecy, ecz);
    if d.Err? { return Err(Malformed(d.error)); }
    return Ok(d.value);
  }
}
