/**
 * `Player`: the body the game moves, and `moveAndCollide`, which resolves the
 * x, z and y moves one after the other. Each move scans the blocks the moved
 * box reaches and clamps the coordinate just short of every solid one, with
 * a margin `EPS`. Floating-point quantities are exact reals here.
 */
module Players {
  import opened JavaTypes
  import opened BlockIds
  import opened Physics
  import opened Worlds
  import opened BlockScan

  /** `EPS = 1e-5f`. */
  const EPS: real := 0.00001

  /** Java's `(int)` cast of a `float`: rounds toward zero and saturates at the ends of `int`. */
  function TruncToInt(v: real): Int32
  {
    Clamp32(if v >= 0.0 then v.Floor else -((-v).Floor))
  }

  /** `fastFloor(v)`: the cast, less one when the cast rounded up; `int`
      arithmetic wraps the smallest `int` less one round to the largest. */
  function FastFloor(v: real): (r: Int32)
    ensures v >= 0.0 && v < TWO_31 as real ==> r == v.Floor
  {
    var i := TruncToInt(v);
    if v < i as real then (if i == -TWO_31 then TWO_31 - 1 else i - 1) else i
  }

  /** Within `int`'s range `fastFloor` is the floor. */
  lemma FastFloorIsFloor(v: real)
    requires -TWO_31 as real <= v < TWO_31 as real
    ensures FastFloor(v) == v.Floor
  {
    if v < 0.0 {
      var t := -((-v).Floor);
      assert v <= t as real < v + 1.0;
      assert -TWO_31 <= t <= 0;
      if v < t as real {
        assert v.Floor == t - 1;
      } else {
        assert v.Floor == t;
      }
    }
  }

  /** Below `int`'s range the cast saturates and `i - 1` wraps round to the largest `int`. */
  lemma FastFloorWraps()
    ensures FastFloor(-3000000000.5) == TWO_31 - 1
  {
    assert TruncToInt(-3000000000.5) == -TWO_31;
  }

  /** What one scan of `moveAxis` is about: the palette, the half width and
      height of the body, and the axis and displacement of the move. */
  datatype Probe = Probe(pal: Palette, halfW: real, height: real, a: Axis, d: real)

  /** Where a solid block at `c` stops the coordinate: the body's face lands
      `EPS` short of the block's near face (`bx - halfWidth - EPS`,
      `(bx + 1) + halfWidth + EPS`, `by - height - EPS`, `(by + 1) + EPS`). */
  function Stop(pr: Probe, c: Cell): real
  {
    match pr.a
    case X => if pr.d > 0.0 then c.x as real - pr.halfW - EPS else (c.x + 1) as real + pr.halfW + EPS
    case Y => if pr.d > 0.0 then c.y as real - pr.height - EPS else (c.y + 1) as real + EPS
    case Z => if pr.d > 0.0 then c.z as real - pr.halfW - EPS else (c.z + 1) as real + pr.halfW + EPS
  }

  ghost predicate Solid(pr: Probe, view: imap<Cell, Short>, c: Cell)
  {
    pr.pal.IsSolid(At(view, c))
  }

  /** `if (stop < allowed) allowed = stop;` moving up the axis, `if (stop > allowed) allowed = stop;` moving down. */
  function Pull(d: real, acc: real, stop: real): real
  {
    if d > 0.0 then (if stop < acc then stop else acc) else (if stop > acc then stop else acc)
  }

  /** One iteration of the scan, at cell `c`. */
  ghost function Clamp(pr: Probe, view: imap<Cell, Short>, acc: real, c: Cell): real
  {
    if Solid(pr, view, c) then Pull(pr.d, acc, Stop(pr, c)) else acc
  }

  /** The innermost loop: bz from `z0` to `z1` at fixed bx and by. */
  ghost function ColumnClamp(pr: Probe, view: imap<Cell, Short>, acc: real, x: int, y: int, z0: int, z1: int): real
    decreases z1 - z0
  {
    if z1 < z0 then acc else Clamp(pr, view, ColumnClamp(pr, view, acc, x, y, z0, z1 - 1), Cell(x, y, z1))
  }

  /** The middle loop: by from `y0` to `y1` at fixed bx. */
  ghost function SliceClamp(pr: Probe, view: imap<Cell, Short>, acc: real, x: int, y0: int, y1: int, z0: int, z1: int): real
    decreases y1 - y0
  {
    if y1 < y0 then acc else ColumnClamp(pr, view, SliceClamp(pr, view, acc, x, y0, y1 - 1, z0, z1), x, y1, z0, z1)
  }

  /** The outer loop: bx from `x0` to `x1`. */
  ghost function BoxClamp(pr: Probe, view: imap<Cell, Short>, acc: real, x0: int, x1: int, y0: int, y1: int, z0: int, z1: int): real
    decreases x1 - x0
  {
    if x1 < x0 then acc else SliceClamp(pr, view, BoxClamp(pr, view, acc, x0, x1 - 1, y0, y1, z0, z1), x1, y0, y1, z0, z1)
  }

  /** `u` is no further than `v` in the direction of motion. */
  predicate NoFurther(d: real, u: real, v: real)
  {
    if d > 0.0 then u <= v else u >= v
  }

  predicate InBox(c: Cell, x0: int, x1: int, y0: int, y1: int, z0: int, z1: int)
  {
    x0 <= c.x <= x1 && y0 <= c.y <= y1 && z0 <= c.z <= z1
  }

  /** `r` is the coordinate `acc` clamped by the solid blocks of the box of
      cells: no further than `acc` or than any of their stops, and equal to
      `acc` or to one of those stops. */
  ghost predicate ClampedBy(pr: Probe, view: imap<Cell, Short>, acc: real, r: real, x0: int, x1: int, y0: int, y1: int, z0: int, z1: int)
  {
    && NoFurther(pr.d, r, acc)
    && (forall c :: InBox(c, x0, x1, y0, y1, z0, z1) && Solid(pr, view, c) ==> NoFurther(pr.d, r, Stop(pr, c)))
    && (r == acc || exists c :: InBox(c, x0, x1, y0, y1, z0, z1) && Solid(pr, view, c) && r == Stop(pr, c))
  }

  lemma {:induction false} ColumnClamped(pr: Probe, view: imap<Cell, Short>, acc: real, x: int, y: int, z0: int, z1: int)
    ensures ClampedBy(pr, view, acc, ColumnClamp(pr, view, acc, x, y, z0, z1), x, x, y, y, z0, z1)
    decreases z1 - z0
  {
    if z1 >= z0 {
      ColumnClamped(pr, view, acc, x, y, z0, z1 - 1);
      var mid := ColumnClamp(pr, view, acc, x, y, z0, z1 - 1);
      var r := ColumnClamp(pr, view, acc, x, y, z0, z1);
      var last := Cell(x, y, z1);
      forall c | InBox(c, x, x, y, y, z0, z1) && Solid(pr, view, c)
        ensures NoFurther(pr.d, r, Stop(pr, c))
      {
        if c != last {
          assert InBox(c, x, x, y, y, z0, z1 - 1);
        }
      }
      if r != acc && r == mid {
        var c :| InBox(c, x, x, y, y, z0, z1 - 1) && Solid(pr, view, c) && mid == Stop(pr, c);
        assert InBox(c, x, x, y, y, z0, z1);
      } else if r != mid {
        assert InBox(last, x, x, y, y, z0, z1) && Solid(pr, view, last) && r == Stop(pr, last);
      }
    }
  }

  lemma {:induction false} SliceClamped(pr: Probe, view: imap<Cell, Short>, acc: real, x: int, y0: int, y1: int, z0: int, z1: int)
    ensures ClampedBy(pr, view, acc, SliceClamp(pr, view, acc, x, y0, y1, z0, z1), x, x, y0, y1, z0, z1)
    decreases y1 - y0
  {
    if y1 >= y0 {
      SliceClamped(pr, view, acc, x, y0, y1 - 1, z0, z1);
      var mid := SliceClamp(pr, view, acc, x, y0, y1 - 1, z0, z1);
      ColumnClamped(pr, view, mid, x, y1, z0, z1);
      var r := SliceClamp(pr, view, acc, x, y0, y1, z0, z1);
      forall c | InBox(c, x, x, y0, y1, z0, z1) && Solid(pr, view, c)
        ensures NoFurther(pr.d, r, Stop(pr, c))
      {
        if c.y < y1 {
          assert InBox(c, x, x, y0, y1 - 1, z0, z1);
        } else {
          assert InBox(c, x, x, y1, y1, z0, z1);
        }
      }
      if r == mid {
        if r != acc {
          var c :| InBox(c, x, x, y0, y1 - 1, z0, z1) && Solid(pr, view, c) && mid == Stop(pr, c);
          assert InBox(c, x, x, y0, y1, z0, z1);
        }
      } else {
        var c :| InBox(c, x, x, y1, y1, z0, z1) && Solid(pr, view, c) && r == Stop(pr, c);
        assert InBox(c, x, x, y0, y1, z0, z1);
      }
    }
  }

  /** The triple loop clamps the coordinate by exactly the solid blocks of its range. */
  lemma {:induction false} BoxClamped(pr: Probe, view: imap<Cell, Short>, acc: real, x0: int, x1: int, y0: int, y1: int, z0: int, z1: int)
    ensures ClampedBy(pr, view, acc, BoxClamp(pr, view, acc, x0, x1, y0, y1, z0, z1), x0, x1, y0, y1, z0, z1)
    decreases x1 - x0
  {
    if x1 >= x0 {
      BoxClamped(pr, view, acc, x0, x1 - 1, y0, y1, z0, z1);
      var mid := BoxClamp(pr, view, acc, x0, x1 - 1, y0, y1, z0, z1);
      SliceClamped(pr, view, mid, x1, y0, y1, z0, z1);
      var r := BoxClamp(pr, view, acc, x0, x1, y0, y1, z0, z1);
      forall c | InBox(c, x0, x1, y0, y1, z0, z1) && Solid(pr, view, c)
        ensures NoFurther(pr.d, r, Stop(pr, c))
      {
        if c.x < x1 {
          assert InBox(c, x0, x1 - 1, y0, y1, z0, z1);
        } else {
          assert InBox(c, x1, x1, y0, y1, z0, z1);
        }
      }
      if r == mid {
        if r != acc {
          var c :| InBox(c, x0, x1 - 1, y0, y1, z0, z1) && Solid(pr, view, c) && mid == Stop(pr, c);
          assert InBox(c, x0, x1, y0, y1, z0, z1);
        }
      } else {
        var c :| InBox(c, x1, x1, y0, y1, z0, z1) && Solid(pr, view, c) && r == Stop(pr, c);
        assert InBox(c, x0, x1, y0, y1, z0, z1);
      }
    }
  }

  /** The clamped coordinate is never past the one clamping started from. */
  lemma BoxClampNoFurther(pr: Probe, view: imap<Cell, Short>, acc: real, x0: int, x1: int, y0: int, y1: int, z0: int, z1: int)
    ensures NoFurther(pr.d, BoxClamp(pr, view, acc, x0, x1, y0, y1, z0, z1), acc)
  {
    BoxClamped(pr, view, acc, x0, x1, y0, y1, z0, z1);
  }

  /** The target of a move, `nx, ny, nz`: `at` advanced by `d` on axis `a`. */
  function Target(at: Vec3, a: Axis, d: real): Vec3
  {
    SetComp(at, a, Comp(at, a) + d)
  }

  /** The first block `moveAxis` scans on axis `e` for the moved box `b`: `fastFloor(min)`. */
  function From(b: AABB, e: Axis): Int32
  {
    FastFloor(Lo(b, e))
  }

  /** The last one: `fastFloor(max - EPS)`. */
  function Upto(b: AABB, e: Axis): Int32
  {
    FastFloor(Hi(b, e) - EPS)
  }

  /** The loops of `moveAxis` end: no scan bound is `Integer.MAX_VALUE`. */
  predicate ScanEnds(b: AABB)
  {
    Upto(b, X) < TWO_31 - 1 && Upto(b, Y) < TWO_31 - 1 && Upto(b, Z) < TWO_31 - 1
  }

  /** `moveAxis(world, x, y, z, d, axis, height)` for a body `halfW` wide on
      each side, in a world whose blocks read as `view`. */
  ghost function MoveTo(pal: Palette, view: imap<Cell, Short>, halfW: real, height: real, at: Vec3, a: Axis, d: real): (r: real)
    ensures d == 0.0 ==> r == Comp(at, a)
    ensures d != 0.0 ==> NoFurther(d, r, Comp(at, a) + d)
  {
    if d == 0.0 then Comp(at, a)
    else
      var n := Target(at, a, d);
      var b := AabbOf(n, halfW, height);
      BoxClampNoFurther(Probe(pal, halfW, height, a, d), view, Comp(n, a), From(b, X), Upto(b, X), From(b, Y), Upto(b, Y), From(b, Z), Upto(b, Z));
      BoxClamp(Probe(pal, halfW, height, a, d), view, Comp(n, a), From(b, X), Upto(b, X), From(b, Y), Upto(b, Y), From(b, Z), Upto(b, Z))
  }

  /** A zero move returns the coordinate; any other move ends at the target
      clamped by exactly the solid blocks in the scanned range of the moved
      box, so it never passes the target. */
  lemma MoveToClamped(pal: Palette, view: imap<Cell, Short>, halfW: real, height: real, at: Vec3, a: Axis, d: real)
    ensures d == 0.0 ==> MoveTo(pal, view, halfW, height, at, a, d) == Comp(at, a)
    ensures var b := AabbOf(Target(at, a, d), halfW, height);
            d != 0.0 ==> ClampedBy(Probe(pal, halfW, height, a, d), view, Comp(at, a) + d, MoveTo(pal, view, halfW, height, at, a, d),
                                   From(b, X), Upto(b, X), From(b, Y), Upto(b, Y), From(b, Z), Upto(b, Z))
  {
    var n := Target(at, a, d);
    var b := AabbOf(n, halfW, height);
    BoxClamped(Probe(pal, halfW, height, a, d), view, Comp(n, a), From(b, X), Upto(b, X), From(b, Y), Upto(b, Y), From(b, Z), Upto(b, Z));
  }

  /** For a bounded box the scans end. */
  lemma BoundedScanEnds(b: AABB)
    requires BoxBounded(b)
    ensures ScanEnds(b)
  {
    FastFloorIsFloor(b.maxX - EPS);
    FastFloorIsFloor(b.maxY - EPS);
    FastFloorIsFloor(b.maxZ - EPS);
  }

  /** For a bounded moved box the move lands within the request plus the
      body's size plus two of where it started. */
  lemma MoveToRange(pal: Palette, view: imap<Cell, Short>, halfW: real, height: real, at: Vec3, a: Axis, d: real)
    requires 0.0 <= halfW && 0.0 <= height && BoxBounded(AabbOf(Target(at, a, d), halfW, height))
    ensures var e := (if d >= 0.0 then d else -d) + 2.0 * halfW + height + 2.0;
            -e <= MoveTo(pal, view, halfW, height, at, a, d) - Comp(at, a) <= e
  {
    var n := Target(at, a, d);
    var b := AabbOf(n, halfW, height);
    MoveToClamped(pal, view, halfW, height, at, a, d);
    var r := MoveTo(pal, view, halfW, height, at, a, d);
    var pr := Probe(pal, halfW, height, a, d);
    if d != 0.0 && r != Comp(n, a) {
      var c :| InBox(c, From(b, X), Upto(b, X), From(b, Y), Upto(b, Y), From(b, Z), Upto(b, Z)) && Solid(pr, view, c) && r == Stop(pr, c);
      assert From(b, a) <= Coord(c, a) <= Upto(b, a);
      ScannedNear(pr, n, c);
    }
  }

  /** A block in the scanned range of a bounded box stops the coordinate
      within the body's size plus two of the target. */
  lemma ScannedNear(pr: Probe, n: Vec3, c: Cell)
    requires 0.0 <= pr.halfW && 0.0 <= pr.height && BoxBounded(AabbOf(n, pr.halfW, pr.height))
    requires var b := AabbOf(n, pr.halfW, pr.height); From(b, pr.a) <= Coord(c, pr.a) <= Upto(b, pr.a)
    ensures var e := 2.0 * pr.halfW + pr.height + 2.0; -e <= Stop(pr, c) - Comp(n, pr.a) <= e
  {
    var b := AabbOf(n, pr.halfW, pr.height);
    FastFloorIsFloor(Lo(b, pr.a));
    FastFloorIsFloor(Hi(b, pr.a) - EPS);
    StopNear(pr, n, c);
  }

  /** A block in the scanned range stops the coordinate within the body's size plus two of the target. */
  lemma StopNear(pr: Probe, n: Vec3, c: Cell)
    requires 0.0 <= pr.halfW && 0.0 <= pr.height
    requires var b := AabbOf(n, pr.halfW, pr.height); Lo(b, pr.a) - 1.0 < Coord(c, pr.a) as real <= Hi(b, pr.a) - EPS
    ensures var e := 2.0 * pr.halfW + pr.height + 2.0; -e <= Stop(pr, c) - Comp(n, pr.a) <= e
  {
  }

  /** `isSolid(world, x, y, z)`: the block `getBlock` reports there is neither air nor water. */
  method SolidAt(w: World, c: Cell, ghost view: imap<Cell, Short>) returns (b: bool)
    requires w.Valid() && Shows(w, view) && c.InInt32()
    modifies w
    ensures w.Valid() && Shows(w, view) && Extends(w, old(w.chunks))
    ensures b == w.gen.pal.IsSolid(At(view, c))
  {
    var id := w.GetBlock(c.x, c.y, c.z);
    b := id != w.gen.pal.air && id != w.gen.pal.water;
  }

  /** The innermost loop of `moveAxis`: bz from `z0` to `z1` at fixed bx and by. */
  method ClampColumn(w: World, pr: Probe, x: int, y: int, z0: int, z1: int, acc0: real, ghost view: imap<Cell, Short>) returns (acc: real)
    requires w.Valid() && Shows(w, view) && pr.pal == w.gen.pal
    requires -TWO_31 <= x < TWO_31 && -TWO_31 <= y < TWO_31 && -TWO_31 <= z0 && z1 < TWO_31 - 1
    modifies w
    ensures w.Valid() && Shows(w, view) && Extends(w, old(w.chunks))
    ensures acc == ColumnClamp(pr, view, acc0, x, y, z0, z1)
  {
    acc := acc0;
    var z := z0;
    while z <= z1
      invariant z0 <= z && (z <= z1 + 1 || z == z0)
      invariant w.Valid() && Shows(w, view) && Extends(w, old(w.chunks))
      invariant acc == ColumnClamp(pr, view, acc0, x, y, z0, z - 1)
      decreases z1 - z
    {
      var c := Cell(x, y, z);
      var solid := SolidAt(w, c, view);
      if solid {
        var stop := Stop(pr, c);
        if pr.d > 0.0 {
          if stop < acc {
            acc := stop;
          }
        } else {
          if stop > acc {
            acc := stop;
          }
        }
      }
      z := z + 1;
    }
  }

  /** The middle loop: by from `y0` to `y1` at fixed bx. */
  method ClampSlice(w: World, pr: Probe, x: int, y0: int, y1: int, z0: int, z1: int, acc0: real, ghost view: imap<Cell, Short>) returns (acc: real)
    requires w.Valid() && Shows(w, view) && pr.pal == w.gen.pal
    requires -TWO_31 <= x < TWO_31 && -TWO_31 <= y0 && y1 < TWO_31 - 1 && -TWO_31 <= z0 && z1 < TWO_31 - 1
    modifies w
    ensures w.Valid() && Shows(w, view) && Extends(w, old(w.chunks))
    ensures acc == SliceClamp(pr, view, acc0, x, y0, y1, z0, z1)
  {
    acc := acc0;
    var y := y0;
    while y <= y1
      invariant y0 <= y && (y <= y1 + 1 || y == y0)
      invariant w.Valid() && Shows(w, view) && Extends(w, old(w.chunks))
      invariant acc == SliceClamp(pr, view, acc0, x, y0, y - 1, z0, z1)
      decreases y1 - y
    {
      acc := ClampColumn(w, pr, x, y, z0, z1, acc, view);
      y := y + 1;
    }
  }

  /** The outer loop: bx from `x0` to `x1`. */
  method ClampBox(w: World, pr: Probe, x0: int, x1: int, y0: int, y1: int, z0: int, z1: int, acc0: real, ghost view: imap<Cell, Short>) returns (acc: real)
    requires w.Valid() && Shows(w, view) && pr.pal == w.gen.pal
    requires -TWO_31 <= x0 && x1 < TWO_31 - 1 && -TWO_31 <= y0 && y1 < TWO_31 - 1 && -TWO_31 <= z0 && z1 < TWO_31 - 1
    modifies w
    ensures w.Valid() && Shows(w, view) && Extends(w, old(w.chunks))
    ensures acc == BoxClamp(pr, view, acc0, x0, x1, y0, y1, z0, z1)
  {
    acc := acc0;
    var x := x0;
    while x <= x1
      invariant x0 <= x && (x <= x1 + 1 || x == x0)
      invariant w.Valid() && Shows(w, view) && Extends(w, old(w.chunks))
      invariant acc == BoxClamp(pr, view, acc0, x0, x - 1, y0, y1, z0, z1)
      decreases x1 - x
    {
      acc := ClampSlice(w, pr, x, y0, y1, z0, z1, acc, view);
      x := x + 1;
    }
  }

  /** Where `moveAndCollide` leaves the body: its position and `onGround`. */
  datatype Motion = Motion(pos: Vec3, onGround: bool)

  /** One move of `moveAndCollide`: `if (d != 0) pos.a = moveAxis(world, pos.x, pos.y, pos.z, d, a, height);`. */
  ghost function AxisMove(pal: Palette, view: imap<Cell, Short>, halfW: real, height: real, pos: Vec3, a: Axis, d: real): Vec3
  {
    if d != 0.0 then SetComp(pos, a, MoveTo(pal, view, halfW, height, pos, a, d)) else pos
  }

  /** The position after the x move of `moveAndCollide`. */
  ghost function CollideX(pal: Palette, view: imap<Cell, Short>, halfW: real, height: real, pos: Vec3, delta: Vec3): Vec3
  {
    AxisMove(pal, view, halfW, height, pos, X, delta.x)
  }

  /** The position after the x and z moves. */
  ghost function CollideXZ(pal: Palette, view: imap<Cell, Short>, halfW: real, height: real, pos: Vec3, delta: Vec3): Vec3
  {
    AxisMove(pal, view, halfW, height, CollideX(pal, view, halfW, height, pos, delta), Z, delta.z)
  }

  /** `moveAndCollide(world, delta, height)` with a world that shows `view`:
      the x, z and y moves in that order, each from the position the earlier
      ones reached; then the ground test, `pos.y > (pos.y + delta.y) + EPS`
      on the final `pos.y`. */
  ghost function Collide(pal: Palette, view: imap<Cell, Short>, halfW: real, height: real, pos: Vec3, delta: Vec3): (r: Motion)
    ensures delta == Vec3(0.0, 0.0, 0.0) ==> r == Motion(pos, false)
    ensures r.onGround ==> delta.y < 0.0
  {
    var q := AxisMove(pal, view, halfW, height, CollideXZ(pal, view, halfW, height, pos, delta), Y, delta.y);
    Motion(q, delta.y < 0.0 && q.y > (q.y + delta.y) + EPS)
  }

  /** The ground test looks at the final `pos.y` on both sides, so it holds
      exactly when the body was asked to move down by more than `EPS`,
      whatever the blocks. */
  lemma CollideGround(pal: Palette, view: imap<Cell, Short>, halfW: real, height: real, pos: Vec3, delta: Vec3)
    ensures Collide(pal, view, halfW, height, pos, delta).onGround <==> delta.y < -EPS
  {
  }

  /** No coordinate passes its requested move in the direction of motion, and
      a zero request leaves the coordinate as it was. */
  lemma CollideNoFurther(pal: Palette, view: imap<Cell, Short>, halfW: real, height: real, pos: Vec3, delta: Vec3, e: Axis)
    ensures var r := Collide(pal, view, halfW, height, pos, delta).pos;
            && (Comp(delta, e) > 0.0 ==> Comp(r, e) <= Comp(pos, e) + Comp(delta, e))
            && (Comp(delta, e) < 0.0 ==> Comp(r, e) >= Comp(pos, e) + Comp(delta, e))
            && (Comp(delta, e) == 0.0 ==> Comp(r, e) == Comp(pos, e))
  {
    var p1 := CollideX(pal, view, halfW, height, pos, delta);
    var p2 := CollideXZ(pal, view, halfW, height, pos, delta);
    MoveToClamped(pal, view, halfW, height, pos, X, delta.x);
    MoveToClamped(pal, view, halfW, height, p1, Z, delta.z);
    MoveToClamped(pal, view, halfW, height, p2, Y, delta.y);
  }

  /** Positions and requested moves within 2^28 of zero and a body at most
      1024 blocks in size: the scans of all three moves end. */
  predicate CollideBounded(pos: Vec3, delta: Vec3, halfW: real, height: real)
  {
    var B := 268435456.0;
    && -B <= pos.x <= B && -B <= pos.y <= B && -B <= pos.z <= B
    && 0.0 <= halfW <= 1024.0 && 0.0 <= height <= 1024.0
    && -B <= delta.x <= B && -B <= delta.y <= B && -B <= delta.z <= B
  }

  /** Under `CollideBounded` every move scans a bounded box. */
  lemma CollideScansBounded(pal: Palette, view: imap<Cell, Short>, halfW: real, height: real, pos: Vec3, delta: Vec3)
    requires CollideBounded(pos, delta, halfW, height)
    ensures BoxBounded(AabbOf(Target(pos, X, delta.x), halfW, height))
    ensures BoxBounded(AabbOf(Target(CollideX(pal, view, halfW, height, pos, delta), Z, delta.z), halfW, height))
    ensures BoxBounded(AabbOf(Target(CollideXZ(pal, view, halfW, height, pos, delta), Y, delta.y), halfW, height))
  {
    MoveToRange(pal, view, halfW, height, pos, X, delta.x);
    var p1 := CollideX(pal, view, halfW, height, pos, delta);
    MoveToRange(pal, view, halfW, height, p1, Z, delta.z);
  }

  /** The player: its velocity, gravity and jump speed (used by the game's
      tick), where its feet are, whether it stands on the ground, and its
      half width. */
  class Player {
    var vel: Vec3
    var gravity: real
    var jumpSpeed: real
    var pos: Vec3
    var onGround: bool
    var halfWidth: real

    /** At rest at the origin, in the air, gravity 100, jump speed 20, 0.6 wide. */
    constructor ()
      ensures vel == Vec3(0.0, 0.0, 0.0) && pos == Vec3(0.0, 0.0, 0.0) && !onGround
      ensures gravity == 100.0 && jumpSpeed == 20.0 && halfWidth == 0.3
    {
      vel, pos, onGround := Vec3(0.0, 0.0, 0.0), Vec3(0.0, 0.0, 0.0), false;
      gravity, jumpSpeed, halfWidth := 100.0, 20.0, 0.3;
    }

    /** Writes `pos` and `onGround`: the world shows the same. */
    method Place(w: World, p: Vec3, g: bool, ghost view: imap<Cell, Short>)
      requires w.Valid() && Shows(w, view)
      modifies this
      ensures w.Valid() && Shows(w, view)
      ensures pos == p && onGround == g
      ensures vel == old(vel) && gravity == old(gravity) && jumpSpeed == old(jumpSpeed) && halfWidth == old(halfWidth)
    {
      label before:
      ghost var arrays: set<object> := w.Arrays();
      assert forall o :: o in arrays ==> o != this;
      pos, onGround := p, g;
      ShowsKept@before(Snapshot(w, view));
    }

    /** `moveAxis(world, x, y, z, d, axis, height)`: the coordinate on axis `a`
        after moving `d` from (x, y, z), as `MoveTo` says. */
    method MoveAxis(w: World, x: real, y: real, z: real, d: real, a: Axis, height: real, ghost view: imap<Cell, Short>) returns (r: real)
      requires w.Valid() && Shows(w, view)
      requires d != 0.0 ==> ScanEnds(AabbOf(Target(Vec3(x, y, z), a, d), halfWidth, height))
      modifies w
      ensures w.Valid() && Shows(w, view) && Extends(w, old(w.chunks))
      ensures r == MoveTo(w.gen.pal, view, halfWidth, height, Vec3(x, y, z), a, d)
    {
      if d == 0.0 {
        return match a case X => x case Y => y case Z => z;
      }
      // `nx, ny, nz`: the coordinates with `d` added on axis `a` only
      var t := Target(Vec3(x, y, z), a, d);
      var box := AabbOf(t, halfWidth, height);
      var n := Comp(t, a);
      var allowed := ClampBox(w, Probe(w.gen.pal, halfWidth, height, a, d), From(box, X), Upto(box, X), From(box, Y), Upto(box, Y), From(box, Z), Upto(box, Z), n, view);
      BoxClampNoFurther(Probe(w.gen.pal, halfWidth, height, a, d), view, n, From(box, X), Upto(box, X), From(box, Y), Upto(box, Y), From(box, Z), Upto(box, Z));
      if d > 0.0 {
        if allowed < n { n := allowed; }
      } else {
        if allowed > n { n := allowed; }
      }
      r := n;
    }

    /** `if (d != 0) pos.a = moveAxis(world, pos.x, pos.y, pos.z, d, a, height);` */
    method Advance(w: World, a: Axis, d: real, height: real, ghost view: imap<Cell, Short>)
      requires w.Valid() && Shows(w, view) && 0.0 <= halfWidth && 0.0 <= height
      requires BoxBounded(AabbOf(Target(pos, a, d), halfWidth, height))
      modifies this, w
      ensures w.Valid() && Shows(w, view) && Extends(w, old(w.chunks))
      ensures pos == AxisMove(w.gen.pal, view, halfWidth, height, old(pos), a, d) && onGround == old(onGround)
      ensures vel == old(vel) && gravity == old(gravity) && jumpSpeed == old(jumpSpeed) && halfWidth == old(halfWidth)
    {
      if d != 0.0 {
        BoundedScanEnds(AabbOf(Target(pos, a, d), halfWidth, height));
        var r := MoveAxis(w, pos.x, pos.y, pos.z, d, a, height, view);
        Place(w, SetComp(pos, a, r), onGround, view);
      }
    }

    /** `moveAndCollide(world, delta, height)`: without a world the body moves
        freely and is in the air; with one, it ends as `Collide` says, the
        world shows the same and the chunk cache only grows. */
    method MoveAndCollide(w: World?, delta: Vec3, height: real, ghost view: imap<Cell, Short>)
      requires w != null ==> w.Valid() && Shows(w, view) && CollideBounded(pos, delta, halfWidth, height)
      modifies this, w
      ensures w == null ==> pos == Vec3(old(pos).x + delta.x, old(pos).y + delta.y, old(pos).z + delta.z) && !onGround
      ensures w != null ==> && w.Valid() && Shows(w, view) && Extends(w, old(w.chunks))
                            && Motion(pos, onGround) == Collide(w.gen.pal, view, halfWidth, height, old(pos), delta)
      ensures vel == old(vel) && gravity == old(gravity) && jumpSpeed == old(jumpSpeed) && halfWidth == old(halfWidth)
    {
      if w == null {
        pos, onGround := Vec3(pos.x + delta.x, pos.y + delta.y, pos.z + delta.z), false;
        return;
      }
      CollideScansBounded(w.gen.pal, view, halfWidth, height, pos, delta);
      Place(w, pos, false, view);
      Advance(w, X, delta.x, height, view);
      Advance(w, Z, delta.z, height, view);
      Advance(w, Y, delta.y, height, view);
      if delta.y < 0.0 {
        var attempted := pos.y + delta.y;
        if pos.y > attempted + EPS {
          Place(w, pos, true, view);
        }
      }
    }
  }
}
