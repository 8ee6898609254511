/**
 * Where a world keeps its chunks on disk, and reading one chunk back.
 * A chunk's file is `<world dir>/chunks/c.<cx>.<cy>.<cz>.bin`, the three
 * coordinates written in decimal as Java's string concatenation writes an `int`.
 */
module WorldStorage {
  import opened JavaTypes
  import opened Wrappers
  import opened Chunks
  import opened Files
  import opened WorldInfos
  import opened ChunkCodec

  /** The decimal digits of a natural number, most significant first, without leading zeros. */
  function Digits(n: nat): (s: string)
    ensures |s| >= 1
    ensures forall i :: 0 <= i < |s| ==> '0' <= s[i] <= '9'
  {
    if n < 10 then [DigitChar(n)] else Digits(n / 10) + [DigitChar(n % 10)]
  }

  function DigitChar(d: nat): (c: char)
    requires d < 10
    ensures '0' <= c <= '9'
  {
    ['0', '1', '2', '3', '4', '5', '6', '7', '8', '9'][d]
  }

  function DigitValue(c: char): nat
  {
    if '0' <= c <= '9' then (c as int) - ('0' as int) else 0
  }

  /** `Integer.toString(v)`: a minus sign for negative values, then the digits of |v|. */
  function Decimal(v: Int32): (s: string)
    ensures |s| >= 1 && (s[0] == '-' <==> v < 0)
    ensures forall i :: 0 <= i < |s| ==> s[i] != '.' && s[i] != '/'
  {
    if v < 0 then "-" + Digits(-(v as int)) else Digits(v)
  }

  /** Reads a string of decimal digits back as a number. */
  function ParseDigits(s: string): nat
  {
    if |s| == 0 then 0 else ParseDigits(s[..|s| - 1]) * 10 + DigitValue(s[|s| - 1])
  }

  function ParseDecimal(s: string): int
  {
    if |s| > 0 && s[0] == '-' then -(ParseDigits(s[1..]) as int) else ParseDigits(s)
  }

  lemma DigitRoundTrip(d: nat)
    requires d < 10
    ensures DigitValue(DigitChar(d)) == d
  {
  }

  lemma {:induction false} ParseDigitsOfDigits(n: nat)
    ensures ParseDigits(Digits(n)) == n
  {
    if n < 10 {
      DigitRoundTrip(n);
      assert Digits(n)[..0] == [];
    } else {
      var s := Digits(n);
      assert s[..|s| - 1] == Digits(n / 10);
      ParseDigitsOfDigits(n / 10);
      DigitRoundTrip(n % 10);
    }
  }

  /** The decimal rendering loses nothing: parsing it gives the value back. */
  lemma ParseDecimalOfDecimal(v: Int32)
    ensures ParseDecimal(Decimal(v)) == v
  {
    if v < 0 {
      var d := Digits(-(v as int));
      assert Decimal(v) == "-" + d;
      assert ("-" + d)[0] == '-' && ("-" + d)[1..] == d;
      ParseDigitsOfDigits(-(v as int));
    } else {
      ParseDigitsOfDigits(v);
      assert Digits(v)[0] != '-';
    }
  }

  lemma DecimalInjective(v: Int32, w: Int32)
    requires Decimal(v) == Decimal(w)
    ensures v == w
  {
    ParseDecimalOfDecimal(v);
    ParseDecimalOfDecimal(w);
  }

  /** `chunkDir(info)`. */
  function ChunkDir(info: WorldInfo): (p: Path)
    ensures p.segments == info.dir.segments + ["chunks"]
  {
    info.dir.Resolve("chunks")
  }

  /** `"c." + cx + "." + cy + "." + cz + ".bin"`. */
  function ChunkFileName(cx: Int32, cy: Int32, cz: Int32): (n: string)
    ensures |n| >= 11 && n[..2] == "c." && n[|n| - 4..] == ".bin"
  {
    var n := "c." + (Decimal(cx) + "." + (Decimal(cy) + "." + (Decimal(cz) + "." + "bin")));
    assert n[..2] == "c." && n[|n| - 4..] == ".bin";
    n
  }

  /** `chunkFile(info, cx, cy, cz)`. */
  function ChunkFile(info: WorldInfo, cx: Int32, cy: Int32, cz: Int32): (p: Path)
    ensures p.segments == info.dir.segments + ["chunks", ChunkFileName(cx, cy, cz)]
  {
    ChunkDir(info).Resolve(ChunkFileName(cx, cy, cz))
  }

  /** The position of the first dot in `s`, or |s| when there is none. */
  function DotIndex(s: string): (n: nat)
    ensures n <= |s|
  {
    if |s| == 0 || s[0] == '.' then 0 else 1 + DotIndex(s[1..])
  }

  lemma {:induction false} DotIndexAfter(a: string, b: string)
    requires forall i :: 0 <= i < |a| ==> a[i] != '.'
    ensures DotIndex(a + "." + b) == |a|
  {
    if |a| > 0 {
      assert (a + "." + b)[1..] == a[1..] + "." + b;
      DotIndexAfter(a[1..], b);
    }
  }

  /** A string without a dot, followed by a dot, determines where that string ends. */
  lemma DotSplit(a: string, b: string, a': string, b': string)
    requires forall i :: 0 <= i < |a| ==> a[i] != '.'
    requires forall i :: 0 <= i < |a'| ==> a'[i] != '.'
    requires a + "." + b == a' + "." + b'
    ensures a == a' && b == b'
  {
    var s := a + "." + b;
    DotIndexAfter(a, b);
    DotIndexAfter(a', b');
    assert a == s[..|a|] == a';
    assert b == s[|a| + 1..] == b';
  }

  /** Different chunk coordinates give different file names. */
  lemma ChunkFileNameInjective(cx: Int32, cy: Int32, cz: Int32, cx': Int32, cy': Int32, cz': Int32)
    requires ChunkFileName(cx, cy, cz) == ChunkFileName(cx', cy', cz')
    ensures cx == cx' && cy == cy' && cz == cz'
  {
    var tail := Decimal(cy) + "." + (Decimal(cz) + "." + "bin");
    var tail' := Decimal(cy') + "." + (Decimal(cz') + "." + "bin");
    assert ChunkFileName(cx, cy, cz)[2..] == Decimal(cx) + "." + tail;
    assert ChunkFileName(cx', cy', cz')[2..] == Decimal(cx') + "." + tail';
    DotSplit(Decimal(cx), tail, Decimal(cx'), tail');
    DotSplit(Decimal(cy), Decimal(cz) + "." + "bin", Decimal(cy'), Decimal(cz') + "." + "bin");
    DotSplit(Decimal(cz), "bin", Decimal(cz'), "bin");
    DecimalInjective(cx, cx');
    DecimalInjective(cy, cy');
    DecimalInjective(cz, cz');
  }

  /** Different chunks of a world are stored in different files. */
  lemma ChunkFileInjective(info: WorldInfo, cx: Int32, cy: Int32, cz: Int32, cx': Int32, cy': Int32, cz': Int32)
    requires ChunkFile(info, cx, cy, cz) == ChunkFile(info, cx', cy', cz')
    ensures cx == cx' && cy == cy' && cz == cz'
  {
    var k := |info.dir.segments| + 1;
    assert ChunkFileName(cx, cy, cz) == ChunkFile(info, cx, cy, cz).segments[k];
    assert ChunkFileName(cx', cy', cz') == ChunkFile(info, cx', cy', cz').segments[k];
    ChunkFileNameInjective(cx, cy, cz, cx', cy', cz');
  }

  /** The cells a load of chunk (cx, cy, cz) would produce from the store as it
      is, or None when there is no such file or it cannot be read or decoded. */
  function StoredCells(store: FileStore, info: WorldInfo, cx: Int32, cy: Int32, cz: Int32): (r: Option<seq<Short>>)
    reads store
    ensures r.Some? ==> |r.value| == Volume
  {
    DecodedAt(store.files, store.unreadable, ChunkFile(info, cx, cy, cz), cx, cy, cz)
  }

  /** The cells file `f` decodes to as chunk (cx, cy, cz), if it exists, can be read and decodes. */
  function DecodedAt(files: map<Path, seq<Byte>>, unreadable: set<Path>, f: Path, cx: Int32, cy: Int32, cz: Int32): (r: Option<seq<Short>>)
    ensures r.Some? ==> |r.value| == Volume
  {
    if f in files && f !in unreadable && DecodeCells(files[f], cx, cy, cz).Ok? then
      Some(DecodeCells(files[f], cx, cy, cz).value)
    else
      None
  }

  /** The outcome of `loadChunkIfExists`: `null`, a chunk, or an `IOException`. */
  datatype Loaded = Absent | Found(chunk: Chunk) | Failed(error: LoadError)

  /** `loadChunkIfExists`: no file means no chunk; otherwise the file is loaded
      for the same coordinates it is named after. */
  method LoadChunkIfExists(store: FileStore, info: WorldInfo, cx: Int32, cy: Int32, cz: Int32) returns (r: Loaded)
    ensures r.Absent? <==> ChunkFile(info, cx, cy, cz) !in store.files
    ensures r.Found? <==> StoredCells(store, info, cx, cy, cz).Some?
    ensures r.Found? ==> && fresh(r.chunk) && fresh(r.chunk.blocks) && r.chunk.Valid()
                         && r.chunk.Cells() == StoredCells(store, info, cx, cy, cz).value
                         && !r.chunk.dirty
    ensures r.Failed? ==> (r.error == ReadFailed <==> ChunkFile(info, cx, cy, cz) in store.unreadable)
    ensures r.Failed? && r.error.Malformed? ==>
              var f := ChunkFile(info, cx, cy, cz);
              f in store.files && r.error == Malformed(DecodeCells(store.files[f], cx, cy, cz).error)
  {
    var file := ChunkFile(info, cx, cy, cz);
    if !store.Exists(file) {
      return Absent;
    }
    var c := Load(store, file, cx, cy, cz);
    if c.Err? {
      return Failed(c.error);
    }
    return Found(c.value);
  }
}
