/**
 * What the two mesh builders write for one face: the texture rectangle of a
 * tile, the corners of a unit cube face, the 20 floats of a quad (four
 * vertices of position and texture coordinate) and its six indices (two
 * triangles).
 */
module Quads {
  import opened JavaTypes
  import opened Physics

  /** Face codes `POS_X` .. `NEG_Z`. */
  const POS_X: int := 0
  const NEG_X: int := 1
  const POS_Y: int := 2
  const NEG_Y: int := 3
  const POS_Z: int := 4
  const NEG_Z: int := 5

  /** A texture rectangle: corner (u0, v0) to corner (u1, v1). */
  datatype UvRect = UvRect(u0: real, v0: real, u1: real, v1: real)

  /** One texture coordinate. */
  datatype TexCoord = TexCoord(u: real, v: real)

  /** `atlasSize / tileSize` and the `%` and `/` by it are defined: a zero divisor
      would throw `ArithmeticException`. */
  predicate TilesDefined(atlasSize: Int32, tileSize: Int32)
  {
    tileSize != 0 && IntDiv(atlasSize, tileSize) != 0
  }

  /** The number of tiles in one atlas row. */
  function TilesPerRow(atlasSize: Int32, tileSize: Int32): Int32
    requires tileSize != 0
  {
    IntDiv(atlasSize, tileSize)
  }

  /** The rectangle of `tile`: `du = tileSize / atlasSize`, column `tile % perRow`
      and row `tile / perRow` (Java's `int` operators), each `du` wide. */
  function TileUv(tile: Int32, atlasSize: Int32, tileSize: Int32): (r: UvRect)
    requires TilesDefined(atlasSize, tileSize)
    ensures r.u1 - r.u0 == r.v1 - r.v0 == tileSize as real / atlasSize as real
  {
    var perRow := TilesPerRow(atlasSize, tileSize);
    assert atlasSize != 0;
    var du := tileSize as real / atlasSize as real;
    var u0 := JRem(tile, perRow) as real * du;
    var v0 := IntDiv(tile, perRow) as real * du;
    UvRect(u0, v0, u0 + du, v0 + du)
  }

  /** For a tile of the atlas grid (square tiles, the atlas at least one tile
      wide, rows filled left to right), the rectangle is that tile's square in
      atlas pixels, scaled by the atlas size, and lies inside the unit square. */
  lemma TileUvInAtlas(tile: Int32, atlasSize: Int32, tileSize: Int32)
    requires 0 < tileSize <= atlasSize
    requires 0 <= tile < (atlasSize / tileSize) * (atlasSize / tileSize)
    ensures TilesDefined(atlasSize, tileSize)
    ensures var r := TileUv(tile, atlasSize, tileSize);
      && r.u0 * atlasSize as real == ((tile % (atlasSize / tileSize)) * tileSize) as real
      && r.v0 * atlasSize as real == ((tile / (atlasSize / tileSize)) * tileSize) as real
      && 0.0 <= r.u0 < r.u1 <= 1.0 && 0.0 <= r.v0 < r.v1 <= 1.0
  {
    var n := atlasSize / tileSize;
    PerRowFits(atlasSize, tileSize);
    TileUvCell(tile, atlasSize, tileSize);
    RowInRange(tile, n);
    RectInAtlas(TileUv(tile, atlasSize, tileSize), tile % n, tile / n, atlasSize, tileSize);
  }

  /** The rectangle at column `col` and row `row` of the grid is that cell, inside the unit square. */
  lemma RectInAtlas(r: UvRect, col: int, row: int, s: int, t: int)
    requires 0 < t <= s && 0 <= col < s / t && 0 <= row < s / t
    requires r.u0 == col as real * (t as real / s as real) && r.v0 == row as real * (t as real / s as real)
    requires r.u1 - r.u0 == r.v1 - r.v0 == t as real / s as real
    ensures r.u0 * s as real == (col * t) as real && r.v0 * s as real == (row * t) as real
    ensures 0.0 <= r.u0 < r.u1 <= 1.0 && 0.0 <= r.v0 < r.v1 <= 1.0
  {
    AtlasCell(r.u0, col, s, t);
    AtlasCell(r.v0, row, s, t);
  }

  /** For non-negative operands Java's `/` and `%` are Dafny's, so the
      rectangle starts at column `tile % n` and row `tile / n`. */
  lemma TileUvCell(tile: Int32, atlasSize: Int32, tileSize: Int32)
    requires 0 < tileSize <= atlasSize && 0 <= tile
    ensures TilesDefined(atlasSize, tileSize)
    ensures var du := tileSize as real / atlasSize as real;
      && TileUv(tile, atlasSize, tileSize).u0 == (tile % (atlasSize / tileSize)) as real * du
      && TileUv(tile, atlasSize, tileSize).v0 == (tile / (atlasSize / tileSize)) as real * du
  {
    PerRowFits(atlasSize, tileSize);
    assert TilesPerRow(atlasSize, tileSize) == atlasSize / tileSize;
  }

  /** Column (or row) `c` of the atlas grid starts `c * t` pixels in and ends inside the atlas. */
  lemma AtlasCell(u: real, c: int, s: int, t: int)
    requires 0 < t <= s && 0 <= c < s / t
    requires u == c as real * (t as real / s as real)
    ensures u * s as real == (c * t) as real
    ensures 0.0 <= u && u + t as real / s as real <= 1.0
  {
    PerRowFits(s, t);
    MulMono(t, c + 1, s / t);
    UnitEdge(u, c, t, s);
  }

  lemma PerRowFits(s: int, t: int)
    requires 0 < t <= s
    ensures 1 <= s / t && (s / t) * t <= s
  {
  }

  lemma RowInRange(tile: int, n: int)
    requires 1 <= n && 0 <= tile < n * n
    ensures 0 <= tile / n < n && 0 <= tile % n < n
  {
    if tile / n >= n {
      MulMono(n, n, tile / n);
    }
  }

  lemma MulMono(k: nat, a: int, b: int)
    requires a <= b
    ensures a * k <= b * k
  {
  }

  /** Tile `c` of an atlas wide enough for `c + 1` tiles starts at u = c*du,
      c*t atlas pixels in, and its far edge u + du is inside [0, 1]. */
  lemma UnitEdge(u: real, c: int, t: int, s: int)
    requires 0 <= c && 0 < t && (c + 1) * t <= s
    requires u == c as real * (t as real / s as real)
    ensures u * s as real == (c * t) as real
    ensures 0.0 <= u && u + t as real / s as real <= 1.0
  {
    var du := t as real / s as real;
    assert du * s as real == t as real;
    assert u + du == (c + 1) as real * du;
    assert (c + 1) as real * t as real <= s as real;
  }

  /** The four corners `addFace` gives face `face` of the block at (x, y, z),
      with x + 1 (and y + 1, z + 1) in `int` arithmetic. */
  function FaceCorners(face: int, x: Int32, y: Int32, z: Int32): (p: seq<Vec3>)
    requires 0 <= face < 6
    ensures |p| == 4
  {
    var x0, x1 := x as real, Wrap32(x + 1) as real;
    var y0, y1 := y as real, Wrap32(y + 1) as real;
    var z0, z1 := z as real, Wrap32(z + 1) as real;
    if face == POS_X then [Vec3(x1, y0, z0), Vec3(x1, y0, z1), Vec3(x1, y1, z1), Vec3(x1, y1, z0)]
    else if face == NEG_X then [Vec3(x0, y0, z1), Vec3(x0, y0, z0), Vec3(x0, y1, z0), Vec3(x0, y1, z1)]
    else if face == POS_Y then [Vec3(x0, y1, z0), Vec3(x1, y1, z0), Vec3(x1, y1, z1), Vec3(x0, y1, z1)]
    else if face == NEG_Y then [Vec3(x0, y0, z1), Vec3(x1, y0, z1), Vec3(x1, y0, z0), Vec3(x0, y0, z0)]
    else if face == POS_Z then [Vec3(x0, y0, z1), Vec3(x1, y0, z1), Vec3(x1, y1, z1), Vec3(x0, y1, z1)]
    else [Vec3(x1, y0, z0), Vec3(x0, y0, z0), Vec3(x0, y1, z0), Vec3(x1, y1, z0)]
  }

  /** `v` is one of the eight corners of the unit block at (x, y, z). */
  predicate OnBlock(v: Vec3, x: int, y: int, z: int)
  {
    && (v.x == x as real || v.x == (x + 1) as real)
    && (v.y == y as real || v.y == (y + 1) as real)
    && (v.z == z as real || v.z == (z + 1) as real)
  }

  /** Away from the `int` limit, every corner of every face is a corner of the
      block, the face lies in its own plane (+X faces at x + 1, -X faces at x,
      and so on), and its four corners are distinct. */
  lemma FaceCornersOnBlock(face: int, x: Int32, y: Int32, z: Int32)
    requires 0 <= face < 6
    requires x < TWO_31 - 1 && y < TWO_31 - 1 && z < TWO_31 - 1
    ensures var p := FaceCorners(face, x, y, z);
      && (forall j :: 0 <= j < 4 ==> OnBlock(p[j], x, y, z))
      && (forall j, k :: 0 <= j < k < 4 ==> p[j] != p[k])
      && (face == POS_X ==> forall j :: 0 <= j < 4 ==> p[j].x == (x + 1) as real)
      && (face == NEG_X ==> forall j :: 0 <= j < 4 ==> p[j].x == x as real)
      && (face == POS_Y ==> forall j :: 0 <= j < 4 ==> p[j].y == (y + 1) as real)
      && (face == NEG_Y ==> forall j :: 0 <= j < 4 ==> p[j].y == y as real)
      && (face == POS_Z ==> forall j :: 0 <= j < 4 ==> p[j].z == (z + 1) as real)
      && (face == NEG_Z ==> forall j :: 0 <= j < 4 ==> p[j].z == z as real)
  {
    assert Wrap32(x + 1) == x + 1 && Wrap32(y + 1) == y + 1 && Wrap32(z + 1) == z + 1;
  }

  /** At the `int` limit, `x + 1` wraps round and the +X face lands at the far negative end. */
  lemma FaceCornersWrap()
    ensures FaceCorners(POS_X, TWO_31 - 1, 0, 0)[0].x == -TWO_31 as real
  {
  }

  /** `put(x, y, z, u, w)`: one vertex, position then texture coordinate. */
  function Vertex(p: Vec3, u: real, w: real): seq<real>
  {
    [p.x, p.y, p.z, u, w]
  }

  /** The floats `quad` puts: corner k with the k-th corner of the texture
      rectangle, going (u0,v0), (u1,v0), (u1,v1), (u0,v1). */
  function QuadFloats(p: seq<Vec3>, uv: UvRect): (r: seq<real>)
    requires |p| == 4
    ensures |r| == 20
  {
    Vertex(p[0], uv.u0, uv.v0) + Vertex(p[1], uv.u1, uv.v0) + Vertex(p[2], uv.u1, uv.v1) + Vertex(p[3], uv.u0, uv.v1)
  }

  /** Corner k of a texture rectangle, counter-clockwise from (u0, v0). */
  function UvCorner(uv: UvRect, k: int): TexCoord
  {
    if k == 0 then TexCoord(uv.u0, uv.v0)
    else if k == 1 then TexCoord(uv.u1, uv.v0)
    else if k == 2 then TexCoord(uv.u1, uv.v1)
    else TexCoord(uv.u0, uv.v1)
  }

  /** Reading an interleaved vertex array: the position of vertex k. */
  function PosAt(fl: seq<real>, k: nat): Vec3
    requires 5 * k + 5 <= |fl|
  {
    Vec3(fl[5 * k], fl[5 * k + 1], fl[5 * k + 2])
  }

  /** Reading an interleaved vertex array: the texture coordinate of vertex k. */
  function TexAt(fl: seq<real>, k: nat): TexCoord
    requires 5 * k + 5 <= |fl|
  {
    TexCoord(fl[5 * k + 3], fl[5 * k + 4])
  }

  /** Reading back corner `k` of the quad's floats. */
  lemma QuadRead(p: seq<Vec3>, uv: UvRect, k: int)
    requires |p| == 4 && 0 <= k < 4
    ensures PosAt(QuadFloats(p, uv), k) == p[k] && TexAt(QuadFloats(p, uv), k) == UvCorner(uv, k)
  {
  }

  /** Past the `n` vertices of `a`, vertices are read from the appended part. */
  lemma ReadAppend(a: seq<real>, b: seq<real>, n: nat, k: nat)
    requires |a| == 5 * n && n <= k && 5 * k + 5 <= |a| + |b|
    ensures PosAt(a + b, k) == PosAt(b, k - n) && TexAt(a + b, k) == TexAt(b, k - n)
  {
  }

  /** Vertices before the appended part are read as before. */
  lemma ReadPrefix(a: seq<real>, b: seq<real>, k: nat)
    requires 5 * k + 5 <= |a|
    ensures PosAt(a + b, k) == PosAt(a, k) && TexAt(a + b, k) == TexAt(a, k)
  {
  }

  /** The indices `quad` puts for the quad whose first vertex is `vb`. */
  function QuadIndices(vb: int): (r: seq<int>)
    ensures |r| == 6
  {
    [vb, vb + 1, vb + 2, vb, vb + 2, vb + 3]
  }

  /** The indices are two triangles over the quad's own four vertices, vb..vb+3,
      sharing the diagonal vb - vb+2 and together using every vertex. */
  lemma QuadIndicesSpan(vb: int)
    ensures forall k :: 0 <= k < 6 ==> vb <= QuadIndices(vb)[k] < vb + 4
    ensures forall j :: vb <= j < vb + 4 ==> j in QuadIndices(vb)
    ensures var r := QuadIndices(vb); r[0] == r[3] && r[2] == r[4]
    ensures var r := QuadIndices(vb); r[0] != r[1] && r[1] != r[2] && r[2] != r[0] && r[3] != r[4] && r[4] != r[5] && r[5] != r[3]
  {
    var r := QuadIndices(vb);
    forall j | vb <= j < vb + 4
      ensures j in r
    {
      assert j == r[0] || j == r[1] || j == r[2] || j == r[5];
    }
  }
}
