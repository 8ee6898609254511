/**
 * The block ranges that the two collision routines scan, as the ordered
 * sequences of cells their triple loops visit, and what a world shows at
 * each cell.
 */
module BlockScan {
  import opened JavaTypes
  import opened Physics
  import opened Worlds
  import opened Chunks

  /** Integer block coordinates. */
  datatype Cell = Cell(x: int, y: int, z: int)
  {
    predicate InInt32()
    {
      -TWO_31 <= x < TWO_31 && -TWO_31 <= y < TWO_31 && -TWO_31 <= z < TWO_31
    }
  }

  datatype Axis = X | Y | Z

  function Coord(c: Cell, a: Axis): int
  {
    match a
    case X => c.x
    case Y => c.y
    case Z => c.z
  }

  function Comp(v: Vec3, a: Axis): real
  {
    match a
    case X => v.x
    case Y => v.y
    case Z => v.z
  }

  /** `v` with its `a` component replaced by `t`. */
  function SetComp(v: Vec3, a: Axis, t: real): (r: Vec3)
    ensures Comp(r, a) == t
    ensures forall b :: b != a ==> Comp(r, b) == Comp(v, b)
  {
    match a
    case X => v.(x := t)
    case Y => v.(y := t)
    case Z => v.(z := t)
  }

  function Lo(b: AABB, a: Axis): real
  {
    match a
    case X => b.minX
    case Y => b.minY
    case Z => b.minZ
  }

  function Hi(b: AABB, a: Axis): real
  {
    match a
    case X => b.maxX
    case Y => b.maxY
    case Z => b.maxZ
  }

  /** The nesting of a triple loop: which coordinate the outer, middle and inner loop run over. */
  datatype Order = YZX | XYZ

  function MkCell(o: Order, u: int, v: int, w: int): Cell
  {
    match o
    case YZX => Cell(w, u, v)
    case XYZ => Cell(u, v, w)
  }

  function Outer(o: Order, c: Cell): int
  {
    match o
    case YZX => c.y
    case XYZ => c.x
  }

  function Middle(o: Order, c: Cell): int
  {
    match o
    case YZX => c.z
    case XYZ => c.y
  }

  function Inner(o: Order, c: Cell): int
  {
    match o
    case YZX => c.x
    case XYZ => c.z
  }

  lemma MkCellParts(o: Order, u: int, v: int, w: int)
    ensures Outer(o, MkCell(o, u, v, w)) == u && Middle(o, MkCell(o, u, v, w)) == v && Inner(o, MkCell(o, u, v, w)) == w
  {
  }

  /** The cells the innermost loop visits: inner coordinate w0..w1 in increasing order. */
  function Line(o: Order, u: int, v: int, w0: int, w1: int): (r: seq<Cell>)
    ensures forall k :: 0 <= k < |r| ==> Outer(o, r[k]) == u && Middle(o, r[k]) == v && w0 <= Inner(o, r[k]) <= w1
    decreases w1 - w0
  {
    if w1 < w0 then [] else Line(o, u, v, w0, w1 - 1) + [MkCell(o, u, v, w1)]
  }

  /** The cells the two inner loops visit for one value of the outer coordinate. */
  function Plane(o: Order, u: int, v0: int, v1: int, w0: int, w1: int): (r: seq<Cell>)
    ensures forall k :: 0 <= k < |r| ==> Outer(o, r[k]) == u && v0 <= Middle(o, r[k]) <= v1 && w0 <= Inner(o, r[k]) <= w1
    decreases v1 - v0
  {
    if v1 < v0 then [] else Plane(o, u, v0, v1 - 1, w0, w1) + Line(o, u, v1, w0, w1)
  }

  /** The cells the whole triple loop visits, in visiting order. */
  function Grid(o: Order, u0: int, u1: int, v0: int, v1: int, w0: int, w1: int): (r: seq<Cell>)
    ensures forall k :: 0 <= k < |r| ==> u0 <= Outer(o, r[k]) <= u1 && v0 <= Middle(o, r[k]) <= v1 && w0 <= Inner(o, r[k]) <= w1
    decreases u1 - u0
  {
    if u1 < u0 then [] else Grid(o, u0, u1 - 1, v0, v1, w0, w1) + Plane(o, u1, v0, v1, w0, w1)
  }

  lemma {:induction false} LineHas(o: Order, u: int, v: int, w0: int, w1: int, w: int)
    requires w0 <= w <= w1
    ensures MkCell(o, u, v, w) in Line(o, u, v, w0, w1)
    decreases w1 - w0
  {
    if w < w1 {
      LineHas(o, u, v, w0, w1 - 1, w);
    }
  }

  lemma {:induction false} PlaneHas(o: Order, u: int, v0: int, v1: int, w0: int, w1: int, v: int, w: int)
    requires v0 <= v <= v1 && w0 <= w <= w1
    ensures MkCell(o, u, v, w) in Plane(o, u, v0, v1, w0, w1)
    decreases v1 - v0
  {
    if v < v1 {
      PlaneHas(o, u, v0, v1 - 1, w0, w1, v, w);
    } else {
      LineHas(o, u, v, w0, w1, w);
    }
  }

  /** The triple loop visits every cell of the range. */
  lemma {:induction false} GridHas(o: Order, u0: int, u1: int, v0: int, v1: int, w0: int, w1: int, u: int, v: int, w: int)
    requires u0 <= u <= u1 && v0 <= v <= v1 && w0 <= w <= w1
    ensures MkCell(o, u, v, w) in Grid(o, u0, u1, v0, v1, w0, w1)
    decreases u1 - u0
  {
    if u < u1 {
      GridHas(o, u0, u1 - 1, v0, v1, w0, w1, u, v, w);
    } else {
      PlaneHas(o, u, v0, v1, w0, w1, v, w);
    }
  }

  /** What a world shows at every cell with `int` coordinates, as one value. */
  ghost function ViewMap(w: World): (m: imap<Cell, Short>)
    requires w.Valid()
    reads w, w.Arrays(), w.disk
    ensures forall c :: c in m <==> c.InInt32()
    ensures Shows(w, m)
  {
    imap c: Cell | c.InInt32() :: w.View(c.x, c.y, c.z)
  }

  /** `view` is what the world shows: it has an entry for every cell with
      `int` coordinates, and that entry is the block `getBlock` reports there. */
  ghost predicate Shows(w: World, view: imap<Cell, Short>)
    requires w.Valid()
    reads w, w.Arrays(), w.disk
  {
    && FullView(view)
    && forall x: Int32, y: Int32, z: Int32 {:trigger w.View(x, y, z)} :: view[Cell(x, y, z)] == w.View(x, y, z)
  }

  /** A world together with a view of it. */
  datatype Snapshot = Snapshot(w: World, view: imap<Cell, Short>)

  /** What a world shows depends only on the world object, its cell arrays and its store. */
  twostate lemma ShowsKept(s: Snapshot)
    requires old(s.w.Valid()) && old(Shows(s.w, s.view))
    requires unchanged(s.w) && unchanged(s.w.disk)
    requires forall o | o in old(s.w.Arrays()) :: unchanged(o)
    ensures s.w.Valid() && Shows(s.w, s.view)
  {
  }

  /** `view` has an entry for every cell with `int` coordinates. */
  ghost predicate FullView(view: imap<Cell, Short>)
  {
    forall c: Cell :: c.InInt32() ==> c in view
  }

  /** The cache keeps every chunk it held in `before`. */
  ghost predicate Extends(w: World, before: map<ChunkPos, Chunk>)
    reads w
  {
    before.Keys <= w.chunks.Keys && forall q :: q in before ==> w.chunks[q] == before[q]
  }

  /** The block `view` shows at `c`. Every cell the scans visit has `int`
      coordinates and so an entry; the 0 for other cells is never consulted. */
  ghost function At(view: imap<Cell, Short>, c: Cell): Short
  {
    if c in view then view[c] else 0
  }

  /** Every face of the box is within 2^30 of the origin. */
  predicate BoxBounded(b: AABB)
  {
    var B := TWO_30 as real;
    && -B <= b.minX <= B && -B <= b.maxX <= B
    && -B <= b.minY <= B && -B <= b.maxY <= B
    && -B <= b.minZ <= B && -B <= b.maxZ <= B
  }
}
