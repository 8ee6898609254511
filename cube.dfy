/**
 * `Cube.build`: the mesh of one unit cube whose six faces all show the same
 * tile, in local buffers of exactly 24 vertices and 36 indices.
 */
module Cubes {
  import opened JavaTypes
  import opened Physics
  import opened NioBuffers
  import opened Quads

  /** The record `Cube.Built(verts, inds)`. */
  datatype Built = Built(verts: Buf<real>, inds: Buf<int>)

  /** The corners `build` passes for face `f`, in the order +X, -X, +Y, -Y, +Z, -Z. */
  function CubeFace(f: int): (p: seq<Vec3>)
    requires 0 <= f < 6
    ensures |p| == 4
  {
    if f == 0 then [Vec3(1.0, 0.0, 0.0), Vec3(1.0, 0.0, 1.0), Vec3(1.0, 1.0, 1.0), Vec3(1.0, 1.0, 0.0)]
    else if f == 1 then [Vec3(0.0, 0.0, 1.0), Vec3(0.0, 0.0, 0.0), Vec3(0.0, 1.0, 0.0), Vec3(0.0, 1.0, 1.0)]
    else if f == 2 then [Vec3(0.0, 1.0, 0.0), Vec3(1.0, 1.0, 0.0), Vec3(1.0, 1.0, 1.0), Vec3(0.0, 1.0, 1.0)]
    else if f == 3 then [Vec3(0.0, 0.0, 1.0), Vec3(1.0, 0.0, 1.0), Vec3(1.0, 0.0, 0.0), Vec3(0.0, 0.0, 0.0)]
    else if f == 4 then [Vec3(0.0, 0.0, 1.0), Vec3(1.0, 0.0, 1.0), Vec3(1.0, 1.0, 1.0), Vec3(0.0, 1.0, 1.0)]
    else [Vec3(1.0, 0.0, 0.0), Vec3(0.0, 0.0, 0.0), Vec3(0.0, 1.0, 0.0), Vec3(1.0, 1.0, 0.0)]
  }

  /** The cube's faces are the chunk builder's faces of the block at the
      origin, face code for face code: `build` emits POS_X .. NEG_Z in order. */
  lemma CubeFacesAreBlockFaces(f: int)
    requires 0 <= f < 6
    ensures CubeFace(f) == FaceCorners(f, 0, 0, 0)
  {
  }

  /** The floats of the first `n` faces, each with the same rectangle. */
  function CubeFloats(uv: UvRect, n: int): (r: seq<real>)
    requires 0 <= n <= 6
    ensures |r| == 20 * n
  {
    if n == 0 then [] else CubeFloats(uv, n - 1) + QuadFloats(CubeFace(n - 1), uv)
  }

  /** The indices of the first `n` faces, face f's quad starting at vertex 4f. */
  function CubeIndices(n: int): (r: seq<int>)
    requires 0 <= n <= 6
    ensures |r| == 6 * n
  {
    if n == 0 then [] else CubeIndices(n - 1) + QuadIndices(4 * (n - 1))
  }

  /** Vertex j of face f is the (4f + j)-th vertex: it stands at corner j of
      that face and carries corner j of the one rectangle. */
  lemma {:induction false} CubeVertices(uv: UvRect, n: int, f: int, j: int)
    requires 0 <= f < n <= 6 && 0 <= j < 4
    ensures PosAt(CubeFloats(uv, n), 4 * f + j) == CubeFace(f)[j]
    ensures TexAt(CubeFloats(uv, n), 4 * f + j) == UvCorner(uv, j)
  {
    var prev := CubeFloats(uv, n - 1);
    var q := QuadFloats(CubeFace(n - 1), uv);
    assert CubeFloats(uv, n) == prev + q;
    if f < n - 1 {
      CubeVertices(uv, n - 1, f, j);
      ReadPrefix(prev, q, 4 * f + j);
    } else {
      QuadRead(CubeFace(n - 1), uv, j);
      ReadAppend(prev, q, 4 * (n - 1), 4 * f + j);
    }
  }

  /** Every corner of every face is a corner of the unit cube. */
  lemma CubeFaceUnit(f: int, j: int)
    requires 0 <= f < 6 && 0 <= j < 4
    ensures var q := CubeFace(f)[j];
      (q.x == 0.0 || q.x == 1.0) && (q.y == 0.0 || q.y == 1.0) && (q.z == 0.0 || q.z == 1.0)
  {
  }

  /** Every position coordinate of the built cube is 0 or 1, and every texture
      coordinate is a corner of the tile's rectangle. */
  lemma CubeOnUnit(uv: UvRect, k: int)
    requires 0 <= k < 24
    ensures var q := PosAt(CubeFloats(uv, 6), k);
      (q.x == 0.0 || q.x == 1.0) && (q.y == 0.0 || q.y == 1.0) && (q.z == 0.0 || q.z == 1.0)
    ensures TexAt(CubeFloats(uv, 6), k) == UvCorner(uv, k % 4)
  {
    var f, j := k / 4, k % 4;
    assert 4 * f + j == k;
    CubeVertices(uv, 6, f, j);
    CubeFaceUnit(f, j);
  }

  /** Index t of face f is vertex 4f + (0, 1, 2, 0, 2, 3)[t]: every index lies
      in [0, 24) and names a vertex of its own face. */
  lemma {:induction false} CubeIndicesFaces(n: int, f: int, t: int)
    requires 0 <= f < n <= 6 && 0 <= t < 6
    ensures CubeIndices(n)[6 * f + t] == 4 * f + QuadIndices(0)[t]
    ensures 4 * f <= CubeIndices(n)[6 * f + t] < 4 * f + 4
  {
    if f < n - 1 {
      CubeIndicesFaces(n - 1, f, t);
    }
  }

  /** `quad(v, i, vb, ...)`: four vertices and two triangles appended to the
      buffers, which have room for them; the next free vertex is returned. */
  method Quad(v: Buf<real>, i: Buf<int>, vb: int, p: seq<Vec3>, uv: UvRect) returns (v': Buf<real>, i': Buf<int>, next: int)
    requires v.Valid() && i.Valid() && |p| == 4
    requires v.limit - v.position >= 20 && i.limit - i.position >= 6
    ensures v'.Valid() && |v'.data| == |v.data| && v'.limit == v.limit
    ensures i'.Valid() && |i'.data| == |i.data| && i'.limit == i.limit
    ensures v'.Written() == v.Written() + QuadFloats(p, uv)
    ensures i'.Written() == i.Written() + QuadIndices(vb)
    ensures next == vb + 4
  {
    v' := PutVertex(v, p[0], uv.u0, uv.v0);
    v' := PutVertex(v', p[1], uv.u1, uv.v0);
    v' := PutVertex(v', p[2], uv.u1, uv.v1);
    v' := PutVertex(v', p[3], uv.u0, uv.v1);
    var r := Put(i, [vb, vb + 1, vb + 2]);
    r := Put(r.buf, [vb, vb + 2, vb + 3]);
    i' := r.buf;
    next := vb + 4;
  }

  /** `put(v, x, y, z, u, w)`: five relative puts, into a buffer with room for them. */
  method PutVertex(v: Buf<real>, p: Vec3, u: real, w: real) returns (v': Buf<real>)
    requires v.Valid() && v.limit - v.position >= 5
    ensures v'.Valid() && |v'.data| == |v.data| && v'.limit == v.limit
    ensures v'.Written() == v.Written() + Vertex(p, u, w)
  {
    v' := Put(v, Vertex(p, u, w)).buf;
  }

  /** One of `build`'s six `quad` calls: face `n` follows the first `n` faces
      in the 120-float and 36-int buffers. */
  method Face(v: Buf<real>, i: Buf<int>, vb: int, n: int, uv: UvRect) returns (v': Buf<real>, i': Buf<int>, next: int)
    requires 0 <= n < 6 && vb == 4 * n
    requires v.Valid() && v.limit == |v.data| == 120 && v.Written() == CubeFloats(uv, n)
    requires i.Valid() && i.limit == |i.data| == 36 && i.Written() == CubeIndices(n)
    ensures v'.Valid() && v'.limit == |v'.data| == 120 && v'.Written() == CubeFloats(uv, n + 1)
    ensures i'.Valid() && i'.limit == |i'.data| == 36 && i'.Written() == CubeIndices(n + 1)
    ensures next == 4 * (n + 1)
  {
    v', i', next := Quad(v, i, vb, CubeFace(n), uv);
  }

  /** `build(tile, atlasSize, tileSize)`: the six faces fill the 120-float and
      36-int buffers exactly, and the flipped buffers read back the cube's
      vertices and indices. */
  method Build(tile: Int32, atlasSize: Int32, tileSize: Int32) returns (b: Built)
    requires TilesDefined(atlasSize, tileSize)
    ensures b.verts.Valid() && b.verts.position == 0 && b.verts.limit == |b.verts.data| == 120
    ensures b.inds.Valid() && b.inds.position == 0 && b.inds.limit == |b.inds.data| == 36
    ensures b.verts.Readable() == CubeFloats(TileUv(tile, atlasSize, tileSize), 6)
    ensures b.inds.Readable() == CubeIndices(6)
  {
    var v := Allocate(24 * 5, 0.0);
    var i := Allocate(36, 0);
    var uv := TileUv(tile, atlasSize, tileSize);
    var vb := 0;
    v, i, vb := Face(v, i, vb, 0, uv);
    v, i, vb := Face(v, i, vb, 1, uv);
    v, i, vb := Face(v, i, vb, 2, uv);
    v, i, vb := Face(v, i, vb, 3, uv);
    v, i, vb := Face(v, i, vb, 4, uv);
    v, i, vb := Face(v, i, vb, 5, uv);
    b := Built(v.Flip(), i.Flip());
  }
}
