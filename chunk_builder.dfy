/**
 * `ChunkBuilder`: collects the visible faces of a chunk into an interleaved
 * vertex buffer (x, y, z, u, v per vertex) and an index buffer (two
 * triangles per face), counting vertices in `vertCount`.
 */
module ChunkBuilders {
  import opened JavaTypes
  import opened Physics
  import opened NioBuffers
  import opened Quads

  /** The record `Built(verts, inds)`: the two buffers, flipped for reading. */
  datatype Built = Built(verts: Buf<real>, inds: Buf<int>)

  class ChunkBuilder {
    const atlasSize: Int32
    const tileSize: Int32
    var v: Buf<real>
    var i: Buf<int>
    var vertCount: int

    /** The builder's invariant while faces are being added: both buffers are
        unflipped, sized for a whole number of faces that fits `int` arithmetic,
        hold 5 floats per counted vertex and 6 indices per face (four vertices),
        and every index names a vertex already written. */
    ghost predicate Valid()
      reads this
    {
      && v.Valid() && i.Valid()
      && v.limit == |v.data| && i.limit == |i.data|
      && |v.data| % 20 == 0 && |i.data| == |v.data| / 20 * 6 && |v.data| < TWO_31
      && vertCount % 4 == 0
      && v.position == 5 * vertCount && i.position == 6 * (vertCount / 4)
      && IndicesBelow(i.Written(), vertCount)
    }

    /** The number of faces added. */
    function Faces(): int
      reads this
    {
      vertCount / 4
    }

    /** `maxFaces`: the number of faces the buffers were created for. */
    function Capacity(): int
      reads this
    {
      |v.data| / 20
    }

    /** `new ChunkBuilder(atlasSize, tileSize, maxFaces)`: buffers for
        `maxFaces * 4 * 5` floats and `maxFaces * 6` ints, and no vertices. */
    constructor (atlasSize: Int32, tileSize: Int32, maxFaces: Int32)
      requires 0 <= maxFaces && maxFaces * 20 < TWO_31
      ensures this.atlasSize == atlasSize && this.tileSize == tileSize
      ensures v == Allocate(maxFaces * 4 * 5, 0.0) && i == Allocate(maxFaces * 6, 0) && vertCount == 0
      ensures Valid() && Faces() == 0 && Capacity() == maxFaces
    {
      this.atlasSize := atlasSize;
      this.tileSize := tileSize;
      v := Allocate(maxFaces * 4 * 5, 0.0);
      i := Allocate(maxFaces * 6, 0);
      vertCount := 0;
    }

    /** `put(x, y, z, u, w)`: five relative puts into the vertex buffer. */
    method PutVertex(p: Vec3, u: real, w: real) returns (ok: bool)
      requires v.Valid()
      modifies this
      ensures v == Put(old(v), Vertex(p, u, w)).buf && ok == Put(old(v), Vertex(p, u, w)).ok
      ensures i == old(i) && vertCount == old(vertCount)
    {
      var r := Put(v, Vertex(p, u, w));
      v := r.buf;
      ok := r.ok;
    }

    /** `quad(...)`: four vertices, the indices vc, vc+1, vc+2, vc, vc+2, vc+3 of
        its two triangles, and four more vertices counted. With every face
        slot taken, the first put throws `BufferOverflowException` (`ok` is
        false) before anything is written; otherwise the whole quad fits. */
    method Quad(p: seq<Vec3>, uv: UvRect) returns (ok: bool)
      requires |p| == 4 && Valid()
      modifies this
      ensures Valid() && Capacity() == old(Capacity())
      ensures ok <==> old(Faces()) < old(Capacity())
      ensures ok ==> v.Written() == old(v.Written()) + QuadFloats(p, uv)
      ensures ok ==> i.Written() == old(i.Written()) + QuadIndices(old(vertCount)) && vertCount == old(vertCount) + 4
      ensures !ok ==> v == old(v) && i == old(i) && vertCount == old(vertCount)
    {
      ghost var before := v.Written();
      FaceRoom(vertCount, |v.data|);
      ok := PutVertex(p[0], uv.u0, uv.v0);
      if !ok {
        return;
      }
      PutCorners(p, uv);
      assert v.Written() == before + QuadFloats(p, uv);
      PutIndices(vertCount);
      QuadIndicesBelow(old(i.Written()), vertCount);
      vertCount := vertCount + 4;
    }

    /** The puts of `quad`'s last three vertices, once the first has fitted
        (the buffer holds whole faces, so then all of them fit). */
    method PutCorners(p: seq<Vec3>, uv: UvRect)
      requires |p| == 4 && v.Valid() && v.limit - v.position >= 15
      modifies this
      ensures v.Valid() && |v.data| == |old(v.data)| && v.limit == old(v.limit)
      ensures v.Written() == old(v.Written()) + Vertex(p[1], uv.u1, uv.v0) + Vertex(p[2], uv.u1, uv.v1) + Vertex(p[3], uv.u0, uv.v1)
      ensures i == old(i) && vertCount == old(vertCount)
    {
      var ok := PutVertex(p[1], uv.u1, uv.v0);
      ok := PutVertex(p[2], uv.u1, uv.v1);
      ok := PutVertex(p[3], uv.u0, uv.v1);
    }

    /** The two `i.put(...)` chains of `quad`, into an index buffer with room for them. */
    method PutIndices(vc: int)
      requires i.Valid() && i.limit - i.position >= 6
      modifies this
      ensures i.Valid() && |i.data| == |old(i.data)| && i.limit == old(i.limit)
      ensures i.Written() == old(i.Written()) + QuadIndices(vc)
      ensures v == old(v) && vertCount == old(vertCount)
    {
      var r := Put(i, [vc, vc + 1, vc + 2]);
      r := Put(r.buf, [vc, vc + 2, vc + 3]);
      i := r.buf;
    }

    /** `addFace(tile, face, x, y, z)`: nothing for a negative tile (air) or a
        face code outside 0..5; otherwise the quad of that face of block
        (x, y, z), textured with the tile's rectangle. */
    method AddFace(tile: Int32, face: Int32, x: Int32, y: Int32, z: Int32) returns (ok: bool)
      requires Valid()
      requires tile >= 0 ==> TilesDefined(atlasSize, tileSize)
      modifies this
      ensures Valid() && Capacity() == old(Capacity())
      ensures tile < 0 || !(0 <= face < 6) ==> ok && v == old(v) && i == old(i) && vertCount == old(vertCount)
      ensures tile >= 0 && 0 <= face < 6 ==> (ok <==> old(Faces()) < old(Capacity()))
      ensures tile >= 0 && 0 <= face < 6 && ok ==>
        && v.Written() == old(v.Written()) + QuadFloats(FaceCorners(face, x, y, z), TileUv(tile, atlasSize, tileSize))
        && i.Written() == old(i.Written()) + QuadIndices(old(vertCount))
        && vertCount == old(vertCount) + 4
      ensures !ok ==> v == old(v) && i == old(i) && vertCount == old(vertCount)
    {
      if tile < 0 {
        return true;
      }
      var uv := TileUv(tile, atlasSize, tileSize);
      if 0 <= face < 6 {
        ok := Quad(FaceCorners(face, x, y, z), uv);
      } else {
        ok := true;
      }
    }

    /** `build()`: both buffers flipped, so each reads back exactly what was written. */
    method Build() returns (b: Built)
      requires v.Valid() && i.Valid()
      modifies this
      ensures v == old(v).Flip() && i == old(i).Flip() && vertCount == old(vertCount)
      ensures b == Built(v, i)
    {
      v := v.Flip();
      i := i.Flip();
      b := Built(v, i);
    }
  }

  /** Every index in `ws` names one of the first `n` vertices. */
  predicate IndicesBelow(ws: seq<int>, n: int)
  {
    forall k :: 0 <= k < |ws| ==> 0 <= ws[k] < n
  }

  /** A quad's indices name only its own vertices, so appending them to
      indices below `vc` leaves every index below `vc + 4`. */
  lemma QuadIndicesBelow(ws: seq<int>, vc: int)
    requires IndicesBelow(ws, vc) && vc >= 0
    ensures IndicesBelow(ws + QuadIndices(vc), vc + 4)
  {
    QuadIndicesSpan(vc);
  }

  /** The face arithmetic of a builder with `vc` vertices and `len` vertex
      floats: the next vertex fits exactly when a face slot is free, and then
      so do the whole face's floats and indices. */
  lemma FaceRoom(vc: int, len: int)
    requires vc >= 0 && vc % 4 == 0 && len % 20 == 0 && 5 * vc <= len
    ensures 5 * vc + 5 <= len <==> vc / 4 < len / 20
    ensures vc / 4 < len / 20 ==> 5 * vc + 20 <= len && 6 * (vc / 4) + 6 <= len / 20 * 6
    ensures (vc + 4) % 4 == 0 && (vc + 4) / 4 == vc / 4 + 1
  {
    var f, c := vc / 4, len / 20;
    assert vc == 4 * f && len == 20 * c;
    assert 5 * vc == 20 * f;
  }

  /** A valid builder's counts: 5 floats per vertex, 6 indices per face, at most
      `Capacity()` faces, and every index (and every index that a next face
      would add) below 2^31. */
  lemma ValidCounts(cb: ChunkBuilder)
    requires cb.Valid()
    ensures |cb.v.Written()| == 5 * cb.vertCount && |cb.i.Written()| == 6 * cb.Faces()
    ensures 0 <= cb.Faces() <= cb.Capacity() && cb.vertCount + 3 < TWO_31
    ensures IndicesBelow(cb.i.Written(), cb.vertCount)
  {
  }

  /** What a built mesh holds: the readable part of the vertex buffer is the
      written vertices, and every readable index names one of them. */
  lemma BuiltMesh(cb: ChunkBuilder)
    requires cb.Valid()
    ensures var b := Built(cb.v.Flip(), cb.i.Flip());
      && |b.verts.Readable()| == 5 * cb.vertCount
      && |b.inds.Readable()| == 6 * cb.Faces()
      && forall k :: 0 <= k < |b.inds.Readable()| ==> 0 <= b.inds.Readable()[k] < |b.verts.Readable()| / 5
  {
    assert cb.i.Flip().Readable() == cb.i.Written();
  }
}
