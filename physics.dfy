/**
 * Axis-aligned boxes and the physics state of a player. Floating-point
 * quantities are exact reals here; Java `float` rounding is not modelled.
 */
module Physics {
  import opened JavaTypes

  /** A `Vector3f` as a value. */
  datatype Vec3 = Vec3(x: real, y: real, z: real)

  /** The record `AABB(minX, minY, minZ, maxX, maxY, maxZ)`. */
  datatype AABB = AABB(minX: real, minY: real, minZ: real, maxX: real, maxY: real, maxZ: real)
  {
    /** `moved(dx, dy, dz)`: both faces of each axis shift by that axis's offset,
        so the box keeps its size. */
    function Moved(dx: real, dy: real, dz: real): (r: AABB)
      ensures r.minX == minX + dx && r.minY == minY + dy && r.minZ == minZ + dz
      ensures r.maxX - r.minX == maxX - minX && r.maxY - r.minY == maxY - minY && r.maxZ - r.minZ == maxZ - minZ
    {
      AABB(minX + dx, minY + dy, minZ + dz, maxX + dx, maxY + dy, maxZ + dz)
    }

    /** No axis is empty or inverted. */
    predicate Ordered()
    {
      minX <= maxX && minY <= maxY && minZ <= maxZ
    }
  }

  /** Moving by nothing gives the same box. */
  lemma MovedZero(b: AABB)
    ensures b.Moved(0.0, 0.0, 0.0) == b
  {
  }

  /** Two moves add up. */
  lemma MovedTwice(b: AABB, dx: real, dy: real, dz: real, ex: real, ey: real, ez: real)
    ensures b.Moved(dx, dy, dz).Moved(ex, ey, ez) == b.Moved(dx + ex, dy + ey, dz + ez)
  {
  }

  /** `AABBUtil.playerAabb` (and the identical `PlayerPhysicsState.playerAabb`):
      the box of a body standing at `pos` (its feet), `2 * halfW` wide and
      deep, centred on `pos` in x and z, and `height` tall. */
  function AabbOf(pos: Vec3, halfW: real, height: real): (b: AABB)
    ensures b.minY == pos.y && b.maxY - b.minY == height
    ensures b.maxX - b.minX == 2.0 * halfW && b.maxZ - b.minZ == 2.0 * halfW
    ensures b.minX + b.maxX == 2.0 * pos.x && b.minZ + b.maxZ == 2.0 * pos.z
    ensures halfW >= 0.0 && height >= 0.0 ==> b.Ordered()
  {
    AABB(pos.x - halfW, pos.y, pos.z - halfW, pos.x + halfW, pos.y + height, pos.z + halfW)
  }

  /** Java's narrowing of a whole number held in a `double` to `int`: out-of-range values saturate. */
  function Clamp32(v: int): (r: Int32)
    ensures -TWO_31 <= v < TWO_31 ==> r == v
    ensures v < -TWO_31 ==> r == -TWO_31
    ensures v >= TWO_31 ==> r == TWO_31 - 1
  {
    if v < -TWO_31 then -TWO_31 else if v >= TWO_31 then TWO_31 - 1 else v
  }

  /** `Math.ceil` on a real, as a whole number. */
  function Ceil(v: real): (n: int)
    ensures n as real - 1.0 < v <= n as real
  {
    -((-v).Floor)
  }

  /** `floorToBlock(v)`: `(int) Math.floor(v)`, the block coordinate containing `v`. */
  function FloorToBlock(v: real): (r: Int32)
    ensures -TWO_31 as real <= v < TWO_31 as real ==> r as real <= v < r as real + 1.0
  {
    Clamp32(v.Floor)
  }

  /** `ceilToBlock(v)`: `(int) Math.ceil(v) - 1` in `int` arithmetic, the last
      block coordinate a box ending at `v` reaches into. */
  function CeilToBlock(v: real): (r: Int32)
    ensures -TWO_31 as real < v <= (TWO_31 - 1) as real ==> r as real < v <= r as real + 1.0
  {
    Wrap32(Clamp32(Ceil(v)) - 1)
  }

  /** A cast that saturates below `int`'s range makes `ceilToBlock` wrap round to the largest `int`. */
  lemma CeilToBlockWraps()
    ensures CeilToBlock(-3000000000.0) == TWO_31 - 1
  {
    assert Ceil(-3000000000.0) == -3000000000;
  }

  /** `PlayerPhysicsState`: where the body stands, how fast it moves, whether it
      rests on the ground, and its half width and height. `pos` and `vel` are
      the `Vector3f` objects the class holds, as values. */
  class PlayerPhysicsState {
    var pos: Vec3
    var vel: Vec3
    var onGround: bool
    var halfW: real
    var height: real

    /** A body at the origin, at rest, in the air, 0.6 wide and 1.8 tall. */
    constructor ()
      ensures pos == Vec3(0.0, 0.0, 0.0) && vel == Vec3(0.0, 0.0, 0.0) && !onGround
      ensures halfW == 0.3 && height == 1.8
    {
      pos, vel, onGround := Vec3(0.0, 0.0, 0.0), Vec3(0.0, 0.0, 0.0), false;
      halfW, height := 0.3, 1.8;
    }

    /** `playerAabb(this)`: the box depends on the position and the size only. */
    function Aabb(): AABB
      reads this
    {
      AabbOf(pos, halfW, height)
    }
  }
}
