/**
 * The logic of `GameMenu`: the FNV-1a hash that turns a seed text into a
 * seed, the fixed-size text buffers behind the two edit fields, the world
 * list refresh with its selection clamp, and the create and delete actions.
 * Drawing and the Nuklear widgets are not modelled; a button press is a
 * method call.
 */
module Menus {
  import opened JavaTypes
  import opened Wrappers
  import opened WorldInfos
  import opened MenuStates

  /** The Java library string operations the menu relies on, taken as given:
      `String.trim`, `String.isBlank`, `Long.parseLong` (`None` for a
      `NumberFormatException`), `String.getBytes` and `new String(bytes)` in the
      platform charset. */
  datatype StringLib = StringLib(
    trim: JString -> JString,
    isBlank: JString -> bool,
    parseLong: JString -> Option<bv64>,
    getBytes: JString -> seq<Byte>,
    decode: seq<Byte> -> JString)

  /** The FNV-1a 64-bit offset basis and prime (draft-eastlake-fnv, section 2). */
  const FNV_OFFSET: bv64 := 0xcbf2_9ce4_8422_2325
  const FNV_PRIME: bv64 := 0x100_0000_01b3

  /** One FNV-1a round: xor the code unit (zero-extended, as `char` widens to
      `long`) into the hash, then multiply by the prime modulo 2^64. */
  function Round(h: bv64, c: CodeUnit): bv64
  {
    (h ^ c as bv64) * FNV_PRIME
  }

  /** FNV-1a over the UTF-16 code units of `s`, first unit first. */
  function Fnv(s: JString): (h: bv64)
    ensures |s| == 0 ==> h == FNV_OFFSET
    decreases |s|
  {
    if |s| == 0 then FNV_OFFSET else Round(Fnv(s[..|s| - 1]), s[|s| - 1])
  }

  /** The hash of the empty string is the offset basis. */
  lemma FnvEmpty()
    ensures Fnv([]) == FNV_OFFSET
  {
  }

  /** Appending one code unit performs one more round. */
  lemma FnvAppend(s: JString, c: CodeUnit)
    ensures Fnv(s + [c]) == Round(Fnv(s), c)
  {
    assert (s + [c])[..|s|] == s;
  }

  /** The published FNV-1a 64 test value for "a". */
  lemma FnvOfA()
    ensures Fnv([0x61]) == 0xaf63_dc4c_8601_ec8c
  {
    assert [0x61][..0] == [];
    assert Fnv([0x61]) == Round(FNV_OFFSET, 0x61);
  }

  /** `fnv1a64(s)`: one round (`h ^= s.charAt(i); h *= prime`) per unit, in order. */
  method Fnv1a64(s: JString) returns (h: bv64)
    requires |s| < TWO_31
    ensures h == Fnv(s)
  {
    h := FNV_OFFSET;
    var i := 0;
    while i < |s|
      invariant 0 <= i <= |s|
      invariant h == Fnv(s[..i])
    {
      assert s[..i + 1][..i] == s[..i];
      h := Round(h, s[i]);
      i := i + 1;
    }
    assert s[..i] == s;
  }

  /** `parseSeed(s)` (`None` is `null`): 0 for no text or blank text, the number
      for a decimal `long`, and otherwise the FNV-1a hash of the trimmed text;
      past the blank test the seed depends only on the trimmed text. */
  function ParseSeed(lib: StringLib, s: Option<JString>): (seed: bv64)
    ensures s.None? || lib.isBlank(s.value) ==> seed == 0
    ensures s.Some? && !lib.isBlank(s.value) && lib.parseLong(lib.trim(s.value)).Some? ==> seed == lib.parseLong(lib.trim(s.value)).value
    ensures s.Some? && !lib.isBlank(s.value) && lib.parseLong(lib.trim(s.value)).None? ==> seed == Fnv(lib.trim(s.value))
  {
    if s.None? || lib.isBlank(s.value) then 0
    else match lib.parseLong(lib.trim(s.value))
      case Some(n) => n
      case None => Fnv(lib.trim(s.value))
  }

  /** The length `getString` reads: `len` clamped into [0, cap - 1]. */
  function ClampLen(len: int, cap: int): (n: int)
    requires cap >= 1
    ensures 0 <= n <= cap - 1
    ensures 0 <= len <= cap - 1 ==> n == len
    ensures len < 0 ==> n == 0
    ensures len > cap - 1 ==> n == cap - 1
  {
    if len < 0 then 0 else if len > cap - 1 then cap - 1 else len
  }

  /** One edit field: a `ByteBuffer` (its bytes; its position and limit are
      not used by the helpers) and the one-int `IntBuffer` holding its length. */
  class TextBox {
    const buf: array<Byte>
    var len: Int32

    /** There is room for the terminating NUL and the capacity is an `int`. */
    ghost predicate Valid()
      reads this
    {
      1 <= buf.Length < TWO_31
    }

    /** `createByteBuffer(cap)` and `createIntBuffer(1)`: zeros. */
    constructor (cap: int)
      requires 1 <= cap < TWO_31
      ensures Valid() && buf.Length == cap && fresh(buf)
      ensures len == 0 && forall k :: 0 <= k < cap ==> buf[k] == 0
    {
      buf := new Byte[cap](_ => 0);
      len := 0;
    }

    /** The text `getString` would return, as bytes: the first `len` bytes,
        with `len` clamped into the buffer. */
    ghost function Text(): seq<Byte>
      requires Valid()
      reads this, buf
    {
      buf[..ClampLen(len, buf.Length)]
    }

    /** `putString(buf, len, s)`: the first n = min(|bytes|, cap - 1) bytes of
        `s`, a NUL after them, `len` set to n; bytes past the NUL stay. */
    method PutString(lib: StringLib, s: JString)
      requires Valid()
      modifies this, buf
      ensures Valid()
      ensures var bytes := lib.getBytes(s);
        var n := if |bytes| < buf.Length - 1 then |bytes| else buf.Length - 1;
        && len == n && buf[..n] == bytes[..n] && buf[n] == 0 && buf[n + 1..] == old(buf[n + 1..])
      ensures Text() == lib.getBytes(s)[..len]
      ensures |lib.getBytes(s)| < buf.Length ==> Text() == lib.getBytes(s)
    {
      var bytes := lib.getBytes(s);
      var n := if |bytes| < buf.Length - 1 then |bytes| else buf.Length - 1;
      forall k | 0 <= k < n {
        buf[k] := bytes[k];
      }
      buf[n] := 0;
      len := n;
    }

    /** `getString(buf, len)`: the clamped length's bytes copied into a new array and decoded. */
    method GetString(lib: StringLib) returns (r: JString)
      requires Valid()
      ensures r == lib.decode(Text())
    {
      var n := len;
      if n < 0 {
        n := 0;
      }
      if n > buf.Length - 1 {
        n := buf.Length - 1;
      }
      var out := new Byte[n];
      var k := 0;
      while k < n
        invariant 0 <= k <= n
        invariant out[..k] == buf[..k]
      {
        out[k] := buf[k];
        k := k + 1;
      }
      assert out[..] == out[..k];
      r := lib.decode(out[..]);
    }

    /** `ensureNullTerminated(buf, len)`: a `len` past the last slot is cut to
        cap - 1 (a negative one is left), and a NUL goes at the clamped
        length, so the text `getString` reads is unchanged. */
    method EnsureNullTerminated()
      requires Valid()
      modifies this, buf
      ensures Valid()
      ensures len == (if old(len) > buf.Length - 1 then buf.Length - 1 else old(len))
      ensures buf[..] == old(buf[..])[ClampLen(old(len), buf.Length) := 0]
      ensures len <= buf.Length - 1 && buf[if len < 0 then 0 else len] == 0
      ensures Text() == old(Text())
    {
      var n := len;
      if n < 0 {
        n := 0;
      }
      var cap := buf.Length;
      if n > cap - 1 {
        n := cap - 1;
        len := n;
      }
      buf[n] := 0;
    }
  }

  /** The world-list selection after a refresh that listed `n` worlds. */
  function Reselect(selected: int, n: int): (r: int)
    ensures r == -1 <==> n == 0
    ensures n > 0 ==> 0 <= r < n
    ensures 0 <= selected < n ==> r == selected
    ensures n > 0 && selected < 0 ==> r == 0
    ensures n > 0 && selected >= n ==> r == n - 1
  {
    if n == 0 then -1 else if selected < 0 then 0 else if selected >= n then n - 1 else selected
  }

  /** How the world store answered a refresh: `ensure()` threw, `listWorlds()`
      threw, or the saved worlds were listed. */
  datatype Listing = EnsureFailed | ListFailed | Listed(ws: seq<WorldInfo>)

  /** The name a blank world name is replaced by. */
  const DEFAULT_NAME: JString := Units("\U{C774}\U{B984} \U{C5C6}\U{B294} \U{C138}\U{ACC4}")

  /** The menu: its state and the two edit fields, each 64 bytes. */
  class GameMenu {
    const s: MenuState
    const nameBox: TextBox
    const seedBox: TextBox

    ghost predicate Valid()
      reads this, nameBox, seedBox
    {
      && nameBox.Valid() && seedBox.Valid() && nameBox != seedBox && nameBox.buf != seedBox.buf
      && nameBox.buf.Length == 64 && seedBox.buf.Length == 64
    }

    /** `new GameMenu(state, actions)`: the fields start with the state's
        suggested name and seed. */
    constructor (lib: StringLib, state: MenuState)
      ensures Valid() && s == state && fresh(nameBox) && fresh(seedBox) && fresh(nameBox.buf) && fresh(seedBox.buf)
      ensures var n := |lib.getBytes(state.newWorldName)|; nameBox.len == if n < 63 then n else 63
      ensures var n := |lib.getBytes(state.newWorldSeed)|; seedBox.len == if n < 63 then n else 63
      ensures nameBox.Text() == lib.getBytes(state.newWorldName)[..nameBox.len]
      ensures seedBox.Text() == lib.getBytes(state.newWorldSeed)[..seedBox.len]
    {
      s := state;
      nameBox := new TextBox(64);
      seedBox := new TextBox(64);
      new;
      nameBox.PutString(lib, state.newWorldName);
      seedBox.PutString(lib, state.newWorldSeed);
    }

    /** `refreshWorlds()`: on a listing the list is replaced and the selection
        clamped into it; if `listWorlds` throws the list was already cleared;
        if `ensure` throws nothing changes. The exception is caught. */
    method RefreshWorlds(r: Listing)
      requires r.Listed? ==> |r.ws| < TWO_31
      modifies s
      ensures r.EnsureFailed? ==> s.worlds == old(s.worlds) && s.selectedWorld == old(s.selectedWorld)
      ensures r.ListFailed? ==> s.worlds == [] && s.selectedWorld == old(s.selectedWorld)
      ensures r.Listed? ==> s.worlds == r.ws && s.selectedWorld == Reselect(old(s.selectedWorld), |r.ws|)
      ensures s.screen == old(s.screen) && s.pendingDelete == old(s.pendingDelete)
      ensures s.newWorldName == old(s.newWorldName) && s.newWorldSeed == old(s.newWorldSeed)
      ensures s.showCelsius == old(s.showCelsius) && s.mouseSensitivity == old(s.mouseSensitivity)
    {
      if r.EnsureFailed? {
        return;
      }
      s.worlds := [];
      if r.ListFailed? {
        return;
      }
      s.worlds := s.worlds + r.ws;
      if |s.worlds| == 0 {
        s.selectedWorld := -1;
      } else if s.selectedWorld < 0 {
        s.selectedWorld := 0;
      } else if s.selectedWorld >= |s.worlds| {
        s.selectedWorld := |s.worlds| - 1;
      }
    }

    /** The "create" button: the name (a blank trimmed name replaced by the
        default) and the parsed seed handed to `createWorld`; when that
        succeeds the list is refreshed and the world list shown, and when it
        throws nothing else happens. */
    method CreatePressed(lib: StringLib, created: bool, listing: Listing) returns (name: JString, seed: bv64)
      requires Valid()
      requires listing.Listed? ==> |listing.ws| < TWO_31
      modifies s, nameBox, seedBox, nameBox.buf, seedBox.buf
      ensures Valid()
      ensures var typed := lib.trim(lib.decode(old(nameBox.Text())));
        name == if |typed| == 0 then DEFAULT_NAME else typed
      ensures seed == ParseSeed(lib, Some(lib.trim(lib.decode(old(seedBox.Text())))))
      ensures nameBox.Text() == old(nameBox.Text()) && seedBox.Text() == old(seedBox.Text())
      ensures created ==> s.screen == SinglePlayer
      ensures created && listing.EnsureFailed? ==> s.worlds == old(s.worlds) && s.selectedWorld == old(s.selectedWorld)
      ensures created && listing.ListFailed? ==> s.worlds == [] && s.selectedWorld == old(s.selectedWorld)
      ensures created && listing.Listed? ==> s.worlds == listing.ws && s.selectedWorld == Reselect(old(s.selectedWorld), |listing.ws|)
      ensures !created ==> s.screen == old(s.screen) && s.worlds == old(s.worlds) && s.selectedWorld == old(s.selectedWorld)
      ensures s.pendingDelete == old(s.pendingDelete)
      ensures s.newWorldName == old(s.newWorldName) && s.newWorldSeed == old(s.newWorldSeed)
      ensures s.showCelsius == old(s.showCelsius) && s.mouseSensitivity == old(s.mouseSensitivity)
    {
      nameBox.EnsureNullTerminated();
      seedBox.EnsureNullTerminated();
      var typed := nameBox.GetString(lib);
      name := lib.trim(typed);
      var seedText := seedBox.GetString(lib);
      seedText := lib.trim(seedText);
      if |name| == 0 {
        name := DEFAULT_NAME;
      }
      seed := ParseSeed(lib, Some(seedText));
      if created {
        RefreshWorlds(listing);
        s.screen := SinglePlayer;
      }
    }

    /** The "delete" button of the world list: with a selection in range, it
        becomes the pending deletion and the confirmation is shown. */
    method DeletePressed()
      modifies s
      ensures 0 <= old(s.selectedWorld) < |old(s.worlds)| ==> s.pendingDelete == old(s.selectedWorld) && s.screen == ConfirmDelete
      ensures !(0 <= old(s.selectedWorld) < |old(s.worlds)|) ==> s.pendingDelete == old(s.pendingDelete) && s.screen == old(s.screen)
      ensures s.worlds == old(s.worlds) && s.selectedWorld == old(s.selectedWorld)
      ensures s.newWorldName == old(s.newWorldName) && s.newWorldSeed == old(s.newWorldSeed)
      ensures s.showCelsius == old(s.showCelsius) && s.mouseSensitivity == old(s.mouseSensitivity)
    {
      var hasSel := s.selectedWorld >= 0 && s.selectedWorld < |s.worlds|;
      if hasSel {
        s.pendingDelete := s.selectedWorld;
        s.screen := ConfirmDelete;
      }
    }

    /** The "yes" button: the pending world, if in range, is handed to
        `deleteWorld` (returned as `target`); unless that throws, the pending
        deletion is reset to -1, the list refreshed and the world list shown. */
    method ConfirmYes(deleted: bool, listing: Listing) returns (target: Option<WorldInfo>)
      requires listing.Listed? ==> |listing.ws| < TWO_31
      modifies s
      ensures target == if 0 <= old(s.pendingDelete) < |old(s.worlds)| then Some(old(s.worlds)[old(s.pendingDelete)]) else None
      ensures target.None? || deleted ==> s.pendingDelete == -1 && s.screen == SinglePlayer
      ensures (target.None? || deleted) && listing.EnsureFailed? ==> s.worlds == old(s.worlds) && s.selectedWorld == old(s.selectedWorld)
      ensures (target.None? || deleted) && listing.ListFailed? ==> s.worlds == [] && s.selectedWorld == old(s.selectedWorld)
      ensures (target.None? || deleted) && listing.Listed? ==> s.worlds == listing.ws && s.selectedWorld == Reselect(old(s.selectedWorld), |listing.ws|)
      ensures target.Some? && !deleted ==> s.pendingDelete == old(s.pendingDelete) && s.screen == old(s.screen) && s.worlds == old(s.worlds) && s.selectedWorld == old(s.selectedWorld)
      ensures s.newWorldName == old(s.newWorldName) && s.newWorldSeed == old(s.newWorldSeed)
      ensures s.showCelsius == old(s.showCelsius) && s.mouseSensitivity == old(s.mouseSensitivity)
    {
      target := None;
      if s.pendingDelete >= 0 && s.pendingDelete < |s.worlds| {
        target := Some(s.worlds[s.pendingDelete]);
        if !deleted {
          return;
        }
      }
      s.pendingDelete := -1;
      RefreshWorlds(listing);
      s.screen := SinglePlayer;
    }

    /** The "no" button: no deletion pending, back to the world list. */
    method ConfirmNo()
      modifies s
      ensures s.pendingDelete == -1 && s.screen == SinglePlayer
      ensures s.worlds == old(s.worlds) && s.selectedWorld == old(s.selectedWorld)
      ensures s.newWorldName == old(s.newWorldName) && s.newWorldSeed == old(s.newWorldSeed)
      ensures s.showCelsius == old(s.showCelsius) && s.mouseSensitivity == old(s.mouseSensitivity)
    {
      s.pendingDelete := -1;
      s.screen := SinglePlayer;
    }
  }
}
