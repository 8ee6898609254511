/**
 * The `java.nio` buffers the mesh builders fill (`FloatBuffer`, `IntBuffer`),
 * as values: a backing store whose length is the capacity, a position and a
 * limit. Relative `put` writes at the position and advances it; at the limit
 * it throws `BufferOverflowException` instead.
 */
module NioBuffers {

  datatype Buf<T> = Buf(data: seq<T>, position: int, limit: int)
  {
    /** The buffer invariant: 0 <= position <= limit <= capacity. */
    predicate Valid()
    {
      0 <= position <= limit <= |data|
    }

    /** The elements before the position: what has been put since the last rewind. */
    function Written(): seq<T>
      requires Valid()
    {
      data[..position]
    }

    /** The elements between position and limit: what a reader of the buffer sees. */
    function Readable(): seq<T>
      requires Valid()
    {
      data[position..limit]
    }

    /** `flip()`: the limit moves to the position and the position to 0, so what
        was written becomes what is read. */
    function Flip(): (r: Buf<T>)
      requires Valid()
      ensures r.Valid() && r.position == 0 && r.Readable() == Written()
    {
      Buf(data, 0, position)
    }
  }

  /** `BufferUtils.createFloatBuffer(n)` and `createIntBuffer(n)`: `n` zeros,
      position 0, limit `n`. */
  function Allocate<T>(n: nat, zero: T): (r: Buf<T>)
    ensures r.Valid() && r.Written() == [] && |r.data| == n && r.limit == n
  {
    Buf(seq(n, _ => zero), 0, n)
  }

  /** The buffer after a chain of puts, and whether the chain completed
      (`false`: it threw `BufferOverflowException`). */
  datatype Puts<T> = Puts(buf: Buf<T>, ok: bool)

  /** `b.put(xs[0]).put(xs[1])...`: each element is written at the position;
      the first put at the limit throws, keeping the elements put before it. */
  function Put<T>(b: Buf<T>, xs: seq<T>): (r: Puts<T>)
    requires b.Valid()
    ensures r.buf.Valid() && |r.buf.data| == |b.data| && r.buf.limit == b.limit
    ensures r.ok <==> |xs| <= b.limit - b.position
    ensures r.ok ==> r.buf.Written() == b.Written() + xs
    ensures !r.ok ==> r.buf.position == b.limit && r.buf.Written() == b.Written() + xs[..b.limit - b.position]
    ensures b.position == b.limit && |xs| > 0 ==> r.buf == b
    decreases |xs|
  {
    if |xs| == 0 then Puts(b, true)
    else if b.position == b.limit then Puts(b, false)
    else
      var next := Buf(b.data[b.position := xs[0]], b.position + 1, b.limit);
      assert next.Written() == b.Written() + [xs[0]];
      Put(next, xs[1..])
  }
}
