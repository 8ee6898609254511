/**
 * `CollisionResolver`: one physics step of a player body against the blocks
 * of a world, resolving the x, y and z moves one after the other. Each axis
 * scans the cells under the box moved by the full displacement and pulls
 * the displacement back in front of every solid cell the (current) moved box
 * still overlaps.
 */
module CollisionResolver {
  import opened JavaTypes
  import opened BlockIds
  import opened Physics
  import opened Worlds
  import opened BlockScan
  import opened Chunks

  /** `box.moved(...)` with the offset `t` on axis `a` and 0 on the others. */
  function Shift(b: AABB, a: Axis, t: real): (r: AABB)
    ensures Lo(r, a) == Lo(b, a) + t && Hi(r, a) == Hi(b, a) + t
    ensures forall e :: e != a ==> Lo(r, e) == Lo(b, e) && Hi(r, e) == Hi(b, e)
  {
    match a
    case X => b.Moved(t, 0.0, 0.0)
    case Y => b.Moved(0.0, t, 0.0)
    case Z => b.Moved(0.0, 0.0, t)
  }

  /** On axis `e` the box overlaps the open unit interval of cell `c`. */
  predicate Overlaps(b: AABB, c: Cell, e: Axis)
  {
    Hi(b, e) > Coord(c, e) as real && Lo(b, e) < (Coord(c, e) + 1) as real
  }

  /** `intersects(a, bx, by, bz)`: the box and the unit cube of the cell overlap in volume. */
  predicate Intersects(b: AABB, c: Cell)
  {
    Overlaps(b, c, X) && Overlaps(b, c, Y) && Overlaps(b, c, Z)
  }

  function Min(u: real, v: real): (r: real)
    ensures r <= u && r <= v && (r == u || r == v)
  {
    if u <= v then u else v
  }

  function Max(u: real, v: real): (r: real)
    ensures r >= u && r >= v && (r == u || r == v)
  {
    if u >= v then u else v
  }

  /** The displacement that brings the leading face of `box` onto the near face
      of cell `c`: `x - box.maxX()` moving up the axis, `(x + 1) - box.minX()` moving down. */
  function Face(box: AABB, a: Axis, d: real, c: Cell): real
  {
    if d > 0.0 then Coord(c, a) as real - Hi(box, a) else (Coord(c, a) + 1) as real - Lo(box, a)
  }

  /** The loop state of `collideAxis`: the allowed displacement, whether a
      branch zeroed the velocity, and whether it set `onGround`. */
  datatype Outcome = Outcome(allowed: real, hit: bool, ground: bool)

  function Init(d: real): Outcome
  {
    Outcome(d, false, false)
  }

  /** One iteration of the inner loop, at cell `c` holding block `id`. The
      moved box is always `box` shifted by the current allowed displacement. */
  function Step(pal: Palette, box: AABB, a: Axis, d: real, st: Outcome, c: Cell, id: Short): Outcome
  {
    if d != 0.0 && pal.IsSolid(id) && Intersects(Shift(box, a, st.allowed), c) then
      Outcome(if d > 0.0 then Min(st.allowed, Face(box, a, d, c)) else Max(st.allowed, Face(box, a, d, c)),
              true,
              st.ground || (a == Y && d < 0.0))
    else
      st
  }

  /** The loop state after visiting `cells` in order, starting from `st`. */
  ghost function Fold(pal: Palette, box: AABB, a: Axis, d: real, st: Outcome, cells: seq<Cell>, view: imap<Cell, Short>): Outcome
    decreases |cells|
  {
    if |cells| == 0 then st
    else
      var n := |cells| - 1;
      Step(pal, box, a, d, Fold(pal, box, a, d, st, cells[..n], view), cells[n], At(view, cells[n]))
  }

  /** Visiting two runs of cells one after the other is visiting their concatenation. */
  lemma {:induction false} FoldAppend(pal: Palette, box: AABB, a: Axis, d: real, st: Outcome, u: seq<Cell>, v: seq<Cell>, view: imap<Cell, Short>)
    ensures Fold(pal, box, a, d, st, u + v, view) == Fold(pal, box, a, d, Fold(pal, box, a, d, st, u, view), v, view)
    decreases |v|
  {
    if |v| == 0 {
      assert u + v == u;
    } else {
      var n := |v| - 1;
      assert (u + v)[..|u| + n] == u + v[..n];
      FoldAppend(pal, box, a, d, st, u, v[..n], view);
    }
  }

  /** How the loop state can evolve: the allowed displacement never grows in
      the direction of motion (it may pass zero and push the body back when the
      box starts inside a solid block), the flags are only ever set, the state
      changes only with a hit, the first hit strictly shortens the move, and a
      zero displacement changes nothing. */
  ghost predicate Progress(d: real, st: Outcome, r: Outcome)
  {
    && (d > 0.0 ==> r.allowed <= st.allowed)
    && (d < 0.0 ==> r.allowed >= st.allowed)
    && (d == 0.0 ==> r == st)
    && (st.hit ==> r.hit)
    && (st.ground ==> r.ground)
    && (!r.hit ==> r == st)
    && (r.hit && !st.hit ==> r.allowed != st.allowed)
  }

  lemma StepProgress(pal: Palette, box: AABB, a: Axis, d: real, st: Outcome, c: Cell, id: Short)
    ensures Progress(d, st, Step(pal, box, a, d, st, c, id))
  {
    if d != 0.0 && pal.IsSolid(id) && Intersects(Shift(box, a, st.allowed), c) {
      assert Overlaps(Shift(box, a, st.allowed), c, a);
      if d > 0.0 {
        assert Face(box, a, d, c) < st.allowed;
      } else {
        assert Face(box, a, d, c) > st.allowed;
      }
    }
  }

  /** The clamp is not bounded by zero: a unit box at the origin that already
      overlaps the solid cell (0, 0, 0) and asks for +0.5 on x is given -1,
      `Math.min(allowedDx, x - box.maxX())` pushing it back out of the cell. */
  lemma StepPushesBack(pal: Palette)
    requires pal.Distinct()
    ensures Step(pal, AABB(0.0, 0.0, 0.0, 1.0, 1.0, 1.0), X, 0.5, Init(0.5), Cell(0, 0, 0), pal.stone).allowed == -1.0
  {
  }

  lemma {:induction false} FoldProgress(pal: Palette, box: AABB, a: Axis, d: real, st: Outcome, cells: seq<Cell>, view: imap<Cell, Short>)
    ensures Progress(d, st, Fold(pal, box, a, d, st, cells, view))
    decreases |cells|
  {
    if |cells| > 0 {
      var n := |cells| - 1;
      var m := Fold(pal, box, a, d, st, cells[..n], view);
      FoldProgress(pal, box, a, d, st, cells[..n], view);
      StepProgress(pal, box, a, d, m, cells[n], At(view, cells[n]));
    }
  }

  /** `onGround` is set exactly by a hit while moving down the y axis. */
  lemma {:induction false} FoldGround(pal: Palette, box: AABB, a: Axis, d: real, st: Outcome, cells: seq<Cell>, view: imap<Cell, Short>)
    requires st.ground == (st.hit && a == Y && d < 0.0)
    ensures var r := Fold(pal, box, a, d, st, cells, view); r.ground == (r.hit && a == Y && d < 0.0)
    decreases |cells|
  {
    if |cells| > 0 {
      FoldGround(pal, box, a, d, st, cells[..|cells| - 1], view);
    }
  }

  /** Starting without a hit, the run has a hit exactly when one of its cells is
      solid and overlaps the box moved by the starting displacement. */
  lemma {:induction false} FoldHit(pal: Palette, box: AABB, a: Axis, d: real, st: Outcome, cells: seq<Cell>, view: imap<Cell, Short>)
    requires !st.hit && d != 0.0
    ensures Fold(pal, box, a, d, st, cells, view).hit <==>
              exists k :: 0 <= k < |cells| && pal.IsSolid(At(view, cells[k])) && Intersects(Shift(box, a, st.allowed), cells[k])
    decreases |cells|
  {
    if |cells| > 0 {
      var n := |cells| - 1;
      var m := Fold(pal, box, a, d, st, cells[..n], view);
      FoldHit(pal, box, a, d, st, cells[..n], view);
      FoldProgress(pal, box, a, d, st, cells[..n], view);
      StepProgress(pal, box, a, d, m, cells[n], At(view, cells[n]));
      if m.hit {
        var k :| 0 <= k < n && pal.IsSolid(At(view, cells[..n][k])) && Intersects(Shift(box, a, st.allowed), cells[..n][k]);
        assert cells[..n][k] == cells[k];
      } else {
        assert m == st;
        forall k | 0 <= k < n
          ensures !(pal.IsSolid(At(view, cells[k])) && Intersects(Shift(box, a, st.allowed), cells[k]))
        {
          assert cells[k] == cells[..n][k];
        }
      }
    }
  }

  /** A displacement the run changed is the one that puts the leading face of
      the box onto a face of one of its solid cells. */
  lemma {:induction false} FoldFlush(pal: Palette, box: AABB, a: Axis, d: real, st: Outcome, cells: seq<Cell>, view: imap<Cell, Short>)
    ensures var r := Fold(pal, box, a, d, st, cells, view);
            r.allowed != st.allowed ==>
              exists k :: 0 <= k < |cells| && pal.IsSolid(At(view, cells[k])) && r.allowed == Face(box, a, d, cells[k])
    decreases |cells|
  {
    if |cells| > 0 {
      var n := |cells| - 1;
      var m := Fold(pal, box, a, d, st, cells[..n], view);
      var r := Fold(pal, box, a, d, st, cells, view);
      FoldFlush(pal, box, a, d, st, cells[..n], view);
      if r.allowed != st.allowed && r.allowed == m.allowed {
        var k :| 0 <= k < n && pal.IsSolid(At(view, cells[..n][k])) && m.allowed == Face(box, a, d, cells[..n][k]);
        assert cells[..n][k] == cells[k];
      }
    }
  }

  /** When a run's cells lie between `lo` and `hi` on the axis of travel, the
      displacement is never pulled back further than the nearest of those faces. */
  lemma {:induction false} FoldRange(pal: Palette, box: AABB, a: Axis, d: real, st: Outcome, cells: seq<Cell>, view: imap<Cell, Short>, lo: int, hi: int)
    requires forall k :: 0 <= k < |cells| ==> lo <= Coord(cells[k], a) <= hi
    ensures d > 0.0 ==> Fold(pal, box, a, d, st, cells, view).allowed >= Min(st.allowed, lo as real - Hi(box, a))
    ensures d < 0.0 ==> Fold(pal, box, a, d, st, cells, view).allowed <= Max(st.allowed, (hi + 1) as real - Lo(box, a))
    decreases |cells|
  {
    if |cells| > 0 {
      var n := |cells| - 1;
      FoldRange(pal, box, a, d, st, cells[..n], view, lo, hi);
    }
  }

  /** The state after the innermost loop, x from `x0` to `x1` at fixed y and z. */
  ghost function RowFold(pal: Palette, box: AABB, a: Axis, d: real, st: Outcome, y: int, z: int, x0: int, x1: int, view: imap<Cell, Short>): Outcome
    decreases x1 - x0
  {
    if x1 < x0 then st
    else Step(pal, box, a, d, RowFold(pal, box, a, d, st, y, z, x0, x1 - 1, view), Cell(x1, y, z), At(view, Cell(x1, y, z)))
  }

  /** The state after the middle loop, z from `z0` to `z1` at fixed y. */
  ghost function LayerFold(pal: Palette, box: AABB, a: Axis, d: real, st: Outcome, y: int, z0: int, z1: int, x0: int, x1: int, view: imap<Cell, Short>): Outcome
    decreases z1 - z0
  {
    if z1 < z0 then st
    else RowFold(pal, box, a, d, LayerFold(pal, box, a, d, st, y, z0, z1 - 1, x0, x1, view), y, z1, x0, x1, view)
  }

  /** The state after the outer loop, y from `y0` to `y1`. */
  ghost function BoxFold(pal: Palette, box: AABB, a: Axis, d: real, st: Outcome, y0: int, y1: int, z0: int, z1: int, x0: int, x1: int, view: imap<Cell, Short>): Outcome
    decreases y1 - y0
  {
    if y1 < y0 then st
    else LayerFold(pal, box, a, d, BoxFold(pal, box, a, d, st, y0, y1 - 1, z0, z1, x0, x1, view), y1, z0, z1, x0, x1, view)
  }

  lemma {:induction false} RowFoldIsFold(pal: Palette, box: AABB, a: Axis, d: real, st: Outcome, y: int, z: int, x0: int, x1: int, view: imap<Cell, Short>)
    ensures RowFold(pal, box, a, d, st, y, z, x0, x1, view) == Fold(pal, box, a, d, st, Line(YZX, y, z, x0, x1), view)
    decreases x1 - x0
  {
    if x1 >= x0 {
      RowFoldIsFold(pal, box, a, d, st, y, z, x0, x1 - 1, view);
      var prev := Line(YZX, y, z, x0, x1 - 1);
      assert Line(YZX, y, z, x0, x1) == prev + [Cell(x1, y, z)];
      assert (prev + [Cell(x1, y, z)])[..|prev|] == prev;
    }
  }

  lemma {:induction false} LayerFoldIsFold(pal: Palette, box: AABB, a: Axis, d: real, st: Outcome, y: int, z0: int, z1: int, x0: int, x1: int, view: imap<Cell, Short>)
    ensures LayerFold(pal, box, a, d, st, y, z0, z1, x0, x1, view) == Fold(pal, box, a, d, st, Plane(YZX, y, z0, z1, x0, x1), view)
    decreases z1 - z0
  {
    if z1 >= z0 {
      LayerFoldIsFold(pal, box, a, d, st, y, z0, z1 - 1, x0, x1, view);
      RowFoldIsFold(pal, box, a, d, LayerFold(pal, box, a, d, st, y, z0, z1 - 1, x0, x1, view), y, z1, x0, x1, view);
      FoldAppend(pal, box, a, d, st, Plane(YZX, y, z0, z1 - 1, x0, x1), Line(YZX, y, z1, x0, x1), view);
    }
  }

  /** The triple loop visits the cells of `Grid` in their order. */
  lemma {:induction false} BoxFoldIsFold(pal: Palette, box: AABB, a: Axis, d: real, st: Outcome, y0: int, y1: int, z0: int, z1: int, x0: int, x1: int, view: imap<Cell, Short>)
    ensures BoxFold(pal, box, a, d, st, y0, y1, z0, z1, x0, x1, view) == Fold(pal, box, a, d, st, Grid(YZX, y0, y1, z0, z1, x0, x1), view)
    decreases y1 - y0
  {
    if y1 >= y0 {
      BoxFoldIsFold(pal, box, a, d, st, y0, y1 - 1, z0, z1, x0, x1, view);
      LayerFoldIsFold(pal, box, a, d, BoxFold(pal, box, a, d, st, y0, y1 - 1, z0, z1, x0, x1, view), y1, z0, z1, x0, x1, view);
      FoldAppend(pal, box, a, d, st, Grid(YZX, y0, y1 - 1, z0, z1, x0, x1), Plane(YZX, y1, z0, z1, x0, x1), view);
    }
  }

  /** The outcome of an axis is the fold of the triple loop over the moved box. */
  lemma ResolveIsBoxFold(pal: Palette, box: AABB, a: Axis, d: real, view: imap<Cell, Short>)
    ensures var m := Shift(box, a, d);
            Resolve(pal, box, a, d, view) == BoxFold(pal, box, a, d, Init(d), ScanLo(m, Y), ScanHi(m, Y), ScanLo(m, Z), ScanHi(m, Z), ScanLo(m, X), ScanHi(m, X), view)
  {
    var m := Shift(box, a, d);
    BoxFoldIsFold(pal, box, a, d, Init(d), ScanLo(m, Y), ScanHi(m, Y), ScanLo(m, Z), ScanHi(m, Z), ScanLo(m, X), ScanHi(m, X), view);
  }

  /** The first block `collideAxis` scans on axis `e`: `(int) Math.floor(min)`. */
  function ScanLo(m: AABB, e: Axis): Int32
  {
    FloorToBlock(Lo(m, e))
  }

  /** The last block it scans: `(int) Math.ceil(max) - 1`. */
  function ScanHi(m: AABB, e: Axis): Int32
  {
    CeilToBlock(Hi(m, e))
  }

  /** The cells `collideAxis` visits for the moved box `m`: y outermost, then z, then x. */
  function ScanOf(m: AABB): seq<Cell>
  {
    Grid(YZX, ScanLo(m, Y), ScanHi(m, Y), ScanLo(m, Z), ScanHi(m, Z), ScanLo(m, X), ScanHi(m, X))
  }

  lemma ScanCoords(m: AABB)
    ensures forall k, e :: 0 <= k < |ScanOf(m)| ==> ScanLo(m, e) <= Coord(ScanOf(m)[k], e) <= ScanHi(m, e)
    ensures forall k :: 0 <= k < |ScanOf(m)| ==> ScanOf(m)[k].InInt32()
  {
    var s := ScanOf(m);
    forall k, e | 0 <= k < |s|
      ensures ScanLo(m, e) <= Coord(s[k], e) <= ScanHi(m, e)
    {
      assert Outer(YZX, s[k]) == s[k].y && Middle(YZX, s[k]) == s[k].z && Inner(YZX, s[k]) == s[k].x;
    }
  }

  /** The loops of `collideAxis` end: no scan bound is `Integer.MAX_VALUE`, at
      which `<=` would hold forever as the counter wraps round. */
  predicate Terminates(m: AABB)
  {
    ScanHi(m, X) < TWO_31 - 1 && ScanHi(m, Y) < TWO_31 - 1 && ScanHi(m, Z) < TWO_31 - 1
  }

  /** Within that range the scan bounds are the exact floor and ceiling, and the loops end. */
  lemma ScanExact(m: AABB, e: Axis)
    requires BoxBounded(m)
    ensures ScanLo(m, e) as real <= Lo(m, e) < ScanLo(m, e) as real + 1.0
    ensures ScanHi(m, e) as real < Hi(m, e) <= ScanHi(m, e) as real + 1.0
    ensures Terminates(m)
  {
    assert ScanHi(m, X) as real < TWO_30 as real && ScanHi(m, Y) as real < TWO_30 as real && ScanHi(m, Z) as real < TWO_30 as real;
  }

  /** The scan misses no cell the moved box overlaps. */
  lemma ScanCovers(m: AABB, c: Cell)
    requires BoxBounded(m) && Intersects(m, c)
    ensures c in ScanOf(m)
  {
    ScanExact(m, X);
    ScanExact(m, Y);
    ScanExact(m, Z);
    assert Overlaps(m, c, X) && Overlaps(m, c, Y) && Overlaps(m, c, Z);
    GridHas(YZX, ScanLo(m, Y), ScanHi(m, Y), ScanLo(m, Z), ScanHi(m, Z), ScanLo(m, X), ScanHi(m, X), c.y, c.z, c.x);
  }

  lemma ScanInView(m: AABB, view: imap<Cell, Short>)
    requires FullView(view)
    ensures forall k :: 0 <= k < |ScanOf(m)| ==> ScanOf(m)[k] in view
  {
    ScanCoords(m);
  }

  /** What `collideAxis(world, p, ...)` computes for the box `box` of `p` moving
      `d` along axis `a`, in a world whose blocks read as `view`. */
  ghost function Resolve(pal: Palette, box: AABB, a: Axis, d: real, view: imap<Cell, Short>): (r: Outcome)
    ensures d > 0.0 ==> r.allowed <= d
    ensures d < 0.0 ==> r.allowed >= d
    ensures d == 0.0 ==> r == Init(d)
    ensures r.hit <==> r.allowed != d
    ensures r.ground <==> r.hit && a == Y && d < 0.0
  {
    var cells := ScanOf(Shift(box, a, d));
    FoldProgress(pal, box, a, d, Init(d), cells, view);
    FoldGround(pal, box, a, d, Init(d), cells, view);
    Fold(pal, box, a, d, Init(d), cells, view)
  }

  /** A move is cut short exactly when some solid block overlaps the box moved
      by the whole displacement. */
  lemma ResolveHit(pal: Palette, box: AABB, a: Axis, d: real, view: imap<Cell, Short>)
    requires FullView(view) && d != 0.0 && BoxBounded(Shift(box, a, d))
    ensures Resolve(pal, box, a, d, view).hit <==>
              exists c :: c in view && pal.IsSolid(view[c]) && Intersects(Shift(box, a, d), c)
  {
    var m := Shift(box, a, d);
    var cells := ScanOf(m);
    ScanInView(m, view);
    FoldHit(pal, box, a, d, Init(d), cells, view);
    if exists c :: c in view && pal.IsSolid(view[c]) && Intersects(m, c) {
      var c :| c in view && pal.IsSolid(view[c]) && Intersects(m, c);
      ScanCovers(m, c);
      var k :| 0 <= k < |cells| && cells[k] == c;
      assert pal.IsSolid(At(view, cells[k])) && Intersects(m, cells[k]);
    }
  }

  /** A move cut short stops with the leading face of the box flush against
      the near face of a solid block. */
  lemma ResolveFlush(pal: Palette, box: AABB, a: Axis, d: real, view: imap<Cell, Short>)
    requires FullView(view)
    ensures var r := Resolve(pal, box, a, d, view);
            r.hit ==>
              exists c :: c in view && pal.IsSolid(view[c])
                && (d > 0.0 ==> Hi(Shift(box, a, r.allowed), a) == Coord(c, a) as real)
                && (d < 0.0 ==> Lo(Shift(box, a, r.allowed), a) == (Coord(c, a) + 1) as real)
  {
    var cells := ScanOf(Shift(box, a, d));
    ScanInView(Shift(box, a, d), view);
    FoldFlush(pal, box, a, d, Init(d), cells, view);
    var r := Resolve(pal, box, a, d, view);
    if r.hit {
      var k :| 0 <= k < |cells| && pal.IsSolid(At(view, cells[k])) && r.allowed == Face(box, a, d, cells[k]);
      assert cells[k] in view;
    }
  }

  /** The move is never pulled back by more than the box's own extent plus one
      block beyond the whole displacement. */
  lemma ResolveRange(pal: Palette, box: AABB, a: Axis, d: real, view: imap<Cell, Short>)
    requires BoxBounded(Shift(box, a, d)) && Lo(box, a) <= Hi(box, a)
    ensures d > 0.0 ==> Resolve(pal, box, a, d, view).allowed >= d - (Hi(box, a) - Lo(box, a)) - 1.0
    ensures d < 0.0 ==> Resolve(pal, box, a, d, view).allowed <= d + (Hi(box, a) - Lo(box, a)) + 1.0
  {
    var m := Shift(box, a, d);
    ScanCoords(m);
    ScanExact(m, a);
    FoldRange(pal, box, a, d, Init(d), ScanOf(m), view, ScanLo(m, a), ScanHi(m, a));
  }

  /** `world.getBlock(c)` seen through the world's cells as a whole: it reports
      the block there and leaves what every cell reads as unchanged. */
  method Visit(w: World, c: Cell, ghost view: imap<Cell, Short>) returns (id: Short)
    requires w.Valid() && c.InInt32() && Shows(w, view)
    modifies w
    ensures w.Valid() && Shows(w, view) && Extends(w, old(w.chunks))
    ensures id == At(view, c)
  {
    id := w.GetBlock(c.x, c.y, c.z);
  }

  /** The variables the loops of `collideAxis` update: the allowed
      displacement, the moved box, and the velocity and `onGround` of `p`,
      which are written back to `p` when the loops end. */
  datatype Locals = Locals(allowed: real, moved: AABB, vel: Vec3, onGround: bool)

  /** The loop variables mirror the loop state: `moved` is the box shifted by
      the allowed displacement, a hit has zeroed the velocity on the axis, and
      a downward hit has set `onGround`. */
  predicate Tracks(box: AABB, a: Axis, vel0: Vec3, ground0: bool, st: Outcome, v: Locals)
  {
    && v.allowed == st.allowed && v.moved == Shift(box, a, st.allowed)
    && v.vel == (if st.hit then SetComp(vel0, a, 0.0) else vel0)
    && v.onGround == (ground0 || st.ground)
  }

  /** The innermost loop of `collideAxis`: x from `x0` to `x1` at fixed y and z. */
  method ScanRow(w: World, box: AABB, a: Axis, d: real, y: int, z: int, x0: int, x1: int, v0: Locals,
                 ghost view: imap<Cell, Short>, ghost vel0: Vec3, ghost ground0: bool, ghost st0: Outcome)
    returns (v: Locals, ghost st: Outcome)
    requires w.Valid() && Shows(w, view)
    requires -TWO_31 <= y < TWO_31 && -TWO_31 <= z < TWO_31 && -TWO_31 <= x0 && x1 < TWO_31 - 1
    requires Tracks(box, a, vel0, ground0, st0, v0)
    modifies w
    ensures w.Valid() && Shows(w, view) && Extends(w, old(w.chunks))
    ensures st == RowFold(w.gen.pal, box, a, d, st0, y, z, x0, x1, view)
    ensures Tracks(box, a, vel0, ground0, st, v)
  {
    v, st := v0, st0;
    var x := x0;
    while x <= x1
      invariant x0 <= x && (x <= x1 + 1 || x == x0)
      invariant w.Valid() && Shows(w, view) && Extends(w, old(w.chunks))
      invariant st == RowFold(w.gen.pal, box, a, d, st0, y, z, x0, x - 1, view)
      invariant Tracks(box, a, vel0, ground0, st, v)
      decreases x1 - x
    {
      v, st := ScanCell(w, box, a, d, Cell(x, y, z), v, view, vel0, ground0, st);
      x := x + 1;
    }
  }

  /** One iteration of the innermost loop of `collideAxis`, at cell `c`: a
      solid block the moved box overlaps cuts the allowed displacement back to
      its face, zeroes the velocity on the axis and, hit from above, sets `onGround`. */
  method ScanCell(w: World, box: AABB, a: Axis, d: real, c: Cell, v0: Locals,
                  ghost view: imap<Cell, Short>, ghost vel0: Vec3, ghost ground0: bool, ghost st0: Outcome)
    returns (v: Locals, ghost st: Outcome)
    requires w.Valid() && Shows(w, view) && c.InInt32()
    requires Tracks(box, a, vel0, ground0, st0, v0)
    modifies w
    ensures w.Valid() && Shows(w, view) && Extends(w, old(w.chunks))
    ensures st == Step(w.gen.pal, box, a, d, st0, c, At(view, c))
    ensures Tracks(box, a, vel0, ground0, st, v)
  {
    v := v0;
    var id := Visit(w, c, view);
    if w.gen.pal.IsSolid(id) {
      if Intersects(v.moved, c) {
        if d != 0.0 {
          if d > 0.0 {
            v := v.(allowed := Min(v.allowed, Face(box, a, d, c)));
          } else {
            v := v.(allowed := Max(v.allowed, Face(box, a, d, c)));
            if a == Y {
              v := v.(onGround := true);
            }
          }
          v := v.(moved := Shift(box, a, v.allowed), vel := SetComp(v.vel, a, 0.0));
        }
      }
    }
    st := Step(w.gen.pal, box, a, d, st0, c, id);
  }

  /** The middle loop: z from `z0` to `z1` at fixed y. */
  method ScanLayer(w: World, box: AABB, a: Axis, d: real, y: int, z0: int, z1: int, x0: int, x1: int, v0: Locals,
                   ghost view: imap<Cell, Short>, ghost vel0: Vec3, ghost ground0: bool, ghost st0: Outcome)
    returns (v: Locals, ghost st: Outcome)
    requires w.Valid() && Shows(w, view)
    requires -TWO_31 <= y < TWO_31 && -TWO_31 <= z0 && z1 < TWO_31 - 1 && -TWO_31 <= x0 && x1 < TWO_31 - 1
    requires Tracks(box, a, vel0, ground0, st0, v0)
    modifies w
    ensures w.Valid() && Shows(w, view) && Extends(w, old(w.chunks))
    ensures st == LayerFold(w.gen.pal, box, a, d, st0, y, z0, z1, x0, x1, view)
    ensures Tracks(box, a, vel0, ground0, st, v)
  {
    v, st := v0, st0;
    var z := z0;
    while z <= z1
      invariant z0 <= z && (z <= z1 + 1 || z == z0)
      invariant w.Valid() && Shows(w, view) && Extends(w, old(w.chunks))
      invariant st == LayerFold(w.gen.pal, box, a, d, st0, y, z0, z - 1, x0, x1, view)
      invariant Tracks(box, a, vel0, ground0, st, v)
      decreases z1 - z
    {
      v, st := ScanRow(w, box, a, d, y, z, x0, x1, v, view, vel0, ground0, st);
      z := z + 1;
    }
  }

  /** The outer loop of `collideAxis`, y from `y0` to `y1`, over the scan of moved box `m`. */
  method ScanBox(w: World, box: AABB, a: Axis, d: real, m: AABB, v0: Locals, ghost view: imap<Cell, Short>)
    returns (v: Locals, ghost st: Outcome)
    requires w.Valid() && Shows(w, view) && Terminates(m)
    requires Tracks(box, a, v0.vel, v0.onGround, Init(d), v0)
    modifies w
    ensures w.Valid() && Shows(w, view) && Extends(w, old(w.chunks))
    ensures st == BoxFold(w.gen.pal, box, a, d, Init(d), ScanLo(m, Y), ScanHi(m, Y), ScanLo(m, Z), ScanHi(m, Z), ScanLo(m, X), ScanHi(m, X), view)
    ensures Tracks(box, a, v0.vel, v0.onGround, st, v)
  {
    var minX, maxX := ScanLo(m, X), ScanHi(m, X);
    var minY, maxY := ScanLo(m, Y), ScanHi(m, Y);
    var minZ, maxZ := ScanLo(m, Z), ScanHi(m, Z);
    v, st := v0, Init(d);
    var y := minY as int;
    while y <= maxY as int
      invariant minY <= y && (y <= maxY + 1 || y == minY)
      invariant w.Valid() && Shows(w, view) && Extends(w, old(w.chunks))
      invariant st == BoxFold(w.gen.pal, box, a, d, Init(d), minY, y - 1, minZ, maxZ, minX, maxX, view)
      invariant Tracks(box, a, v0.vel, v0.onGround, st, v)
      decreases maxY - y
    {
      v, st := ScanLayer(w, box, a, d, y, minZ, maxZ, minX, maxX, v, view, v0.vel, v0.onGround, st);
      y := y + 1;
    }
  }

  /** `collideAxis(world, p, ...)` for a move of `d` along axis `a`, in a world
      that shows `view`: the displacement it returns, the velocity component it
      zeroes and the `onGround` it sets are those of `Resolve` on the box of
      `p` before the call; the world shows the same afterwards, and the chunk
      cache only grows. */
  method CollideAxis(w: World, p: PlayerPhysicsState, a: Axis, d: real, ghost view: imap<Cell, Short>) returns (allowed: real)
    requires w.Valid() && Shows(w, view)
    requires Terminates(Shift(p.Aabb(), a, d))
    modifies w, p
    ensures w.Valid() && Shows(w, view) && Extends(w, old(w.chunks))
    ensures var r := Resolve(w.gen.pal, old(p.Aabb()), a, d, view);
            && allowed == r.allowed
            && p.vel == (if r.hit then SetComp(old(p.vel), a, 0.0) else old(p.vel))
            && p.onGround == (old(p.onGround) || r.ground)
    ensures p.pos == old(p.pos) && p.halfW == old(p.halfW) && p.height == old(p.height)
  {
    var box, vel, onGround := p.Aabb(), p.vel, p.onGround;
    ghost var r := Resolve(w.gen.pal, box, a, d, view);
    var v := ScanAxis(w, box, a, d, vel, onGround, view);
    assert Tracks(box, a, vel, onGround, r, v);
    label scanned:
    ghost var arrays: set<object> := w.Arrays();
    assert forall o :: o in arrays ==> o != p;
    p.vel, p.onGround := v.vel, v.onGround;
    ShowsKept@scanned(Snapshot(w, view));
    allowed := v.allowed;
  }

  /** The scan of `collideAxis` for a box `box` moving `d` on axis `a`, with
      the velocity and ground flag it starts from: the loop variables end as
      the outcome of the axis says. */
  method ScanAxis(w: World, box: AABB, a: Axis, d: real, vel: Vec3, onGround: bool, ghost view: imap<Cell, Short>) returns (v: Locals)
    requires w.Valid() && Shows(w, view)
    requires Terminates(Shift(box, a, d))
    modifies w
    ensures w.Valid() && Shows(w, view) && Extends(w, old(w.chunks))
    ensures Tracks(box, a, vel, onGround, Resolve(w.gen.pal, box, a, d, view), v)
  {
    var moved := Shift(box, a, d);
    ResolveIsBoxFold(w.gen.pal, box, a, d, view);
    ghost var st;
    v, st := ScanBox(w, box, a, d, moved, Locals(d, moved, vel, onGround), view);
  }

  /** The parts of `PlayerPhysicsState` that `stepPlayer` changes. */
  datatype Body = Body(pos: Vec3, vel: Vec3, onGround: bool)

  function BodyOf(p: PlayerPhysicsState): Body
    reads p
  {
    Body(p.pos, p.vel, p.onGround)
  }

  /** The start of a step: gravity lowers `vel.y` by `30 dt`, and `onGround` is reset. */
  function Launch(b: Body, dt: real): Body
  {
    Body(b.pos, b.vel.(y := b.vel.y - 30.0 * dt), false)
  }

  /** One axis of `stepPlayer`, `if (d != 0) d = collideAxis(...); pos += d;`,
      for a body `halfW` wide on each side and `height` tall. */
  ghost function MoveOnAxis(pal: Palette, view: imap<Cell, Short>, halfW: real, height: real, b: Body, a: Axis, d: real): (r: Body)
    ensures forall e :: e != a ==> Comp(r.pos, e) == Comp(b.pos, e) && Comp(r.vel, e) == Comp(b.vel, e)
    ensures d > 0.0 ==> Comp(r.pos, a) <= Comp(b.pos, a) + d
    ensures d < 0.0 ==> Comp(r.pos, a) >= Comp(b.pos, a) + d
    ensures d == 0.0 ==> r == b
    ensures Comp(r.pos, a) == Comp(b.pos, a) + d ==> r.vel == b.vel
    ensures Comp(r.pos, a) != Comp(b.pos, a) + d ==> Comp(r.vel, a) == 0.0
    ensures r.onGround <==> b.onGround || (a == Y && d < 0.0 && Comp(r.pos, a) != Comp(b.pos, a) + d)
  {
    if d == 0.0 then b
    else
      var r := Resolve(pal, AabbOf(b.pos, halfW, height), a, d, view);
      Body(SetComp(b.pos, a, Comp(b.pos, a) + r.allowed),
           if r.hit then SetComp(b.vel, a, 0.0) else b.vel,
           b.onGround || r.ground)
  }

  /** The displacement of a step, `vel * dt`. */
  function Displacement(v: Vec3, dt: real): Vec3
  {
    Vec3(v.x * dt, v.y * dt, v.z * dt)
  }

  /** The body after the x move of displacement `m`. */
  ghost function AfterX(pal: Palette, view: imap<Cell, Short>, halfW: real, height: real, s: Body, m: Vec3): Body
  {
    MoveOnAxis(pal, view, halfW, height, s, X, m.x)
  }

  /** The body after the x and y moves. */
  ghost function AfterY(pal: Palette, view: imap<Cell, Short>, halfW: real, height: real, s: Body, m: Vec3): Body
  {
    MoveOnAxis(pal, view, halfW, height, AfterX(pal, view, halfW, height, s, m), Y, m.y)
  }

  /** The x, y and z moves in that order, each from the position the earlier ones reached. */
  ghost function Moves(pal: Palette, view: imap<Cell, Short>, halfW: real, height: real, s: Body, m: Vec3): Body
  {
    MoveOnAxis(pal, view, halfW, height, AfterY(pal, view, halfW, height, s, m), Z, m.z)
  }

  /** `stepPlayer(world, p, dt)`: gravity, then the three moves, with the
      displacements all taken from the velocity before the first move. */
  ghost function StepSpec(pal: Palette, view: imap<Cell, Short>, halfW: real, height: real, b: Body, dt: real): Body
  {
    var s := Launch(b, dt);
    Moves(pal, view, halfW, height, s, Displacement(s.vel, dt))
  }

  const StepLimit: real := 268435456.0

  /** Positions and displacements within 2^28 of zero and a body at most 1024
      blocks in size: the scans of all three moves end. */
  predicate MovesBounded(pos: Vec3, m: Vec3, halfW: real, height: real)
  {
    && -StepLimit <= pos.x <= StepLimit && -StepLimit <= pos.y <= StepLimit && -StepLimit <= pos.z <= StepLimit
    && 0.0 <= halfW <= 1024.0 && 0.0 <= height <= 1024.0
    && -StepLimit <= m.x <= StepLimit && -StepLimit <= m.y <= StepLimit && -StepLimit <= m.z <= StepLimit
  }

  predicate StepBounded(b: Body, halfW: real, height: real, dt: real)
  {
    var s := Launch(b, dt);
    MovesBounded(s.pos, Displacement(s.vel, dt), halfW, height)
  }

  /** A move shifts the coordinate on its axis by at most the request plus the body's size plus one. */
  lemma MoveRange(pal: Palette, view: imap<Cell, Short>, halfW: real, height: real, b: Body, a: Axis, d: real)
    requires 0.0 <= halfW && 0.0 <= height
    requires BoxBounded(Shift(AabbOf(b.pos, halfW, height), a, d))
    ensures var e := (if d >= 0.0 then d else -d) + 2.0 * halfW + height + 1.0;
            var r := MoveOnAxis(pal, view, halfW, height, b, a, d);
            -e <= Comp(r.pos, a) - Comp(b.pos, a) <= e
  {
    if d != 0.0 {
      var box := AabbOf(b.pos, halfW, height);
      ResolveRange(pal, box, a, d, view);
    }
  }

  /** Under `MovesBounded` every move scans a bounded box. */
  lemma MovesScanBounded(pal: Palette, view: imap<Cell, Short>, halfW: real, height: real, s: Body, m: Vec3)
    requires MovesBounded(s.pos, m, halfW, height)
    ensures BoxBounded(Shift(AabbOf(s.pos, halfW, height), X, m.x))
    ensures BoxBounded(Shift(AabbOf(AfterX(pal, view, halfW, height, s, m).pos, halfW, height), Y, m.y))
    ensures BoxBounded(Shift(AabbOf(AfterY(pal, view, halfW, height, s, m).pos, halfW, height), Z, m.z))
  {
    SweptBounded(s.pos, halfW, height, X, m.x);
    MoveRange(pal, view, halfW, height, s, X, m.x);
    var b1 := AfterX(pal, view, halfW, height, s, m);
    assert b1.pos.y == s.pos.y && b1.pos.z == s.pos.z by {
      assert Comp(b1.pos, Y) == Comp(s.pos, Y) && Comp(b1.pos, Z) == Comp(s.pos, Z);
    }
    SweptBounded(b1.pos, halfW, height, Y, m.y);
    MoveRange(pal, view, halfW, height, b1, Y, m.y);
    var b2 := AfterY(pal, view, halfW, height, s, m);
    assert b2.pos.x == b1.pos.x && b2.pos.z == s.pos.z by {
      assert Comp(b2.pos, X) == Comp(b1.pos, X) && Comp(b2.pos, Z) == Comp(b1.pos, Z);
    }
    SweptBounded(b2.pos, halfW, height, Z, m.z);
  }

  /** A body standing within `2 StepLimit + 4096` of the origin on every axis
      and moving at most `StepLimit` scans a bounded box. */
  lemma SweptBounded(p: Vec3, halfW: real, height: real, a: Axis, d: real)
    requires 0.0 <= halfW <= 1024.0 && 0.0 <= height <= 1024.0 && -StepLimit <= d <= StepLimit
    requires var P := 2.0 * StepLimit + 4096.0;
             -P <= p.x <= P && -P <= p.y <= P && -P <= p.z <= P
    ensures BoxBounded(Shift(AabbOf(p, halfW, height), a, d))
  {
  }

  /** The body ends on the ground exactly when its y move was downward and
      some solid block overlaps the box moved by that whole move. */
  lemma MovesGround(pal: Palette, view: imap<Cell, Short>, halfW: real, height: real, s: Body, m: Vec3)
    requires FullView(view) && MovesBounded(s.pos, m, halfW, height) && !s.onGround
    ensures var box := AabbOf(AfterX(pal, view, halfW, height, s, m).pos, halfW, height);
            Moves(pal, view, halfW, height, s, m).onGround <==>
              m.y < 0.0 && exists c :: c in view && pal.IsSolid(view[c]) && Intersects(Shift(box, Y, m.y), c)
  {
    var box := AabbOf(AfterX(pal, view, halfW, height, s, m).pos, halfW, height);
    MovesScanBounded(pal, view, halfW, height, s, m);
    if m.y < 0.0 {
      ResolveHit(pal, box, Y, m.y, view);
    }
  }

  /** A body that ends on the ground was moving down and has lost its vertical speed. */
  lemma GroundedStops(pal: Palette, view: imap<Cell, Short>, halfW: real, height: real, s: Body, m: Vec3)
    requires !s.onGround && Moves(pal, view, halfW, height, s, m).onGround
    ensures m.y < 0.0 && Moves(pal, view, halfW, height, s, m).vel.y == 0.0
  {
    var b1 := AfterX(pal, view, halfW, height, s, m);
    var b2 := AfterY(pal, view, halfW, height, s, m);
    var r := Moves(pal, view, halfW, height, s, m);
    assert Comp(r.vel, Y) == Comp(b2.vel, Y);
  }

  /** After the moves each velocity component is the one before or zero, and
      no coordinate passes its requested move in the direction of motion. */
  lemma MovesComponents(pal: Palette, view: imap<Cell, Short>, halfW: real, height: real, s: Body, m: Vec3, e: Axis)
    ensures var r := Moves(pal, view, halfW, height, s, m);
            && (Comp(r.vel, e) == Comp(s.vel, e) || Comp(r.vel, e) == 0.0)
            && (Comp(m, e) > 0.0 ==> Comp(r.pos, e) <= Comp(s.pos, e) + Comp(m, e))
            && (Comp(m, e) < 0.0 ==> Comp(r.pos, e) >= Comp(s.pos, e) + Comp(m, e))
            && (Comp(m, e) == 0.0 ==> Comp(r.pos, e) == Comp(s.pos, e))
  {
    var b1 := AfterX(pal, view, halfW, height, s, m);
    var b2 := AfterY(pal, view, halfW, height, s, m);
    var r := Moves(pal, view, halfW, height, s, m);
  }

  /** Writes the changing fields of `p`: the world shows the same. */
  method Put(w: World, p: PlayerPhysicsState, b: Body, ghost view: imap<Cell, Short>)
    requires w.Valid() && Shows(w, view)
    modifies p
    ensures w.Valid() && Shows(w, view)
    ensures BodyOf(p) == b && p.halfW == old(p.halfW) && p.height == old(p.height)
  {
    label before:
    ghost var arrays: set<object> := w.Arrays();
    assert forall o :: o in arrays ==> o != p;
    p.pos, p.vel, p.onGround := b.pos, b.vel, b.onGround;
    ShowsKept@before(Snapshot(w, view));
  }

  /** One axis of `stepPlayer`: `if (d != 0) d = collideAxis(...);` then the
      coordinate advances by `d`. */
  method Advance(w: World, p: PlayerPhysicsState, a: Axis, d: real, ghost view: imap<Cell, Short>)
    requires w.Valid() && Shows(w, view)
    requires 0.0 <= p.halfW && 0.0 <= p.height && BoxBounded(Shift(p.Aabb(), a, d))
    modifies w, p
    ensures w.Valid() && Shows(w, view) && Extends(w, old(w.chunks))
    ensures BodyOf(p) == MoveOnAxis(w.gen.pal, view, p.halfW, p.height, old(BodyOf(p)), a, d)
    ensures p.halfW == old(p.halfW) && p.height == old(p.height)
  {
    var allowed := d;
    if d != 0.0 {
      ScanExact(Shift(p.Aabb(), a, d), a);
      allowed := CollideAxis(w, p, a, d, view);
    }
    Put(w, p, Body(SetComp(p.pos, a, Comp(p.pos, a) + allowed), p.vel, p.onGround), view);
  }

  /** `stepPlayer(world, p, dt)` in a world that shows `view`: `p` ends as
      `StepSpec` says, the world shows the same, and the chunk cache only grows. */
  method StepPlayer(w: World, p: PlayerPhysicsState, dt: real, ghost view: imap<Cell, Short>)
    requires w.Valid() && Shows(w, view)
    requires StepBounded(BodyOf(p), p.halfW, p.height, dt)
    modifies w, p
    ensures w.Valid() && Shows(w, view) && Extends(w, old(w.chunks))
    ensures BodyOf(p) == StepSpec(w.gen.pal, view, p.halfW, p.height, old(BodyOf(p)), dt)
    ensures p.halfW == old(p.halfW) && p.height == old(p.height)
  {
    ghost var b := BodyOf(p);
    ghost var pal := w.gen.pal;
    Put(w, p, Body(p.pos, p.vel.(y := p.vel.y - 30.0 * dt), p.onGround), view);
    var dx := p.vel.x * dt;
    var dy := p.vel.y * dt;
    var dz := p.vel.z * dt;
    Put(w, p, Body(p.pos, p.vel, false), view);
    ghost var s := BodyOf(p);
    ghost var m := Vec3(dx, dy, dz);
    assert s == Launch(b, dt) && m == Displacement(s.vel, dt);
    MovesScanBounded(pal, view, p.halfW, p.height, s, m);
    Advance(w, p, X, dx, view);
    Advance(w, p, Y, dy, view);
    Advance(w, p, Z, dz, view);
  }
}
