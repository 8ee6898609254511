/**
 * The per-tick player rules of `Game.loop` and the jump key's press and
 * auto-repeat state machine `hasJump`. The key state and the clock are
 * parameters: `down` is whether space is held, `t` the time in seconds.
 */
module Games {
  import opened JavaTypes
  import opened BlockIds
  import opened Physics
  import opened Worlds
  import opened BlockScan
  import opened Players

  const INITIAL_DELAY: real := 0.35
  const REPEAT_INTERVAL: real := 0.3

  /** The four jump-key fields: held at the last poll, fired since the press,
      when it was pressed, and when it last fired. */
  datatype JumpState = JumpState(down: bool, firedOnce: bool, pressedAt: real, lastRepeatAt: real)

  /** The fields after one `hasJump()` call, and its result. */
  datatype Polled = Polled(state: JumpState, fire: bool)

  /** One `hasJump()` call: a press fires at once and starts the timers; while
      held it fires again once the initial delay has passed since the press
      and the repeat interval since the last firing; a release fires nothing
      and clears the held state. */
  function JumpStep(s: JumpState, down: bool, t: real): (r: Polled)
    ensures down && !s.down ==> r.fire && r.state == JumpState(true, true, t, t)
    ensures down && s.down ==> (r.fire <==> t - s.pressedAt >= INITIAL_DELAY && t - s.lastRepeatAt >= REPEAT_INTERVAL)
    ensures down && s.down ==> r.state == s.(lastRepeatAt := if r.fire then t else s.lastRepeatAt)
    ensures !down ==> !r.fire && r.state == s.(down := false, firedOnce := false)
  {
    if down then
      if !s.down then Polled(JumpState(true, true, t, t), true)
      else if t - s.pressedAt >= INITIAL_DELAY && t - s.lastRepeatAt >= REPEAT_INTERVAL then
        Polled(s.(lastRepeatAt := t), true)
      else Polled(s, false)
    else Polled(s.(down := false, firedOnce := false), false)
  }

  /** One poll of the key: held or not, at time `t`. */
  datatype Poll = Poll(down: bool, t: real)

  /** The fields after the first `k` polls of `ps`, starting from `s`. */
  function After(s: JumpState, ps: seq<Poll>, k: nat): JumpState
    requires k <= |ps|
  {
    if k == 0 then s else JumpStep(After(s, ps, k - 1), ps[k - 1].down, ps[k - 1].t).state
  }

  /** Whether poll `k` fires. */
  function FiresAt(s: JumpState, ps: seq<Poll>, k: nat): bool
    requires k < |ps|
  {
    JumpStep(After(s, ps, k), ps[k].down, ps[k].t).fire
  }

  /** The key is held at every poll from `i` to `j`, and the clock does not go back between them. */
  predicate Held(ps: seq<Poll>, i: nat, j: nat)
    requires i <= j < |ps|
  {
    && (forall k :: i <= k <= j ==> ps[k].down)
    && (forall k :: i <= k < j ==> ps[k].t <= ps[k + 1].t)
  }

  /** Once poll `i` has fired, later polls of the same hold see the key held,
      the press no later than it and the last firing no earlier than it. */
  lemma {:induction false} HoldKeeps(s: JumpState, ps: seq<Poll>, i: nat, k: nat)
    requires i < k <= |ps| && Held(ps, i, k - 1) && FiresAt(s, ps, i)
    ensures After(s, ps, k).down
    ensures After(s, ps, k).lastRepeatAt >= ps[i].t && After(s, ps, k).pressedAt <= ps[i].t
    decreases k
  {
    if k > i + 1 {
      HoldKeeps(s, ps, i, k - 1);
      assert ps[i].t <= ps[k - 2].t <= ps[k - 1].t by { HeldTimes(ps, i, k - 2, k - 1); }
    }
  }

  /** Times along a hold do not decrease. */
  lemma {:induction false} HeldTimes(ps: seq<Poll>, i: nat, m: nat, j: nat)
    requires i <= m <= j < |ps| && Held(ps, i, j)
    ensures ps[i].t <= ps[m].t && ps[m].t <= ps[j].t
    decreases j - i
  {
    if i < m {
      assert Held(ps, i + 1, j);
      HeldTimes(ps, i + 1, m, j);
    } else if m < j {
      assert Held(ps, m, j - 1);
      HeldTimes(ps, m, m, j - 1);
    }
  }

  /** With a clock that does not go back, two firings during one hold are at
      least the repeat interval apart. */
  lemma RepeatSpacing(s: JumpState, ps: seq<Poll>, i: nat, j: nat)
    requires i < j < |ps| && Held(ps, i, j)
    requires FiresAt(s, ps, i) && FiresAt(s, ps, j)
    ensures ps[j].t - ps[i].t >= REPEAT_INTERVAL
  {
    HoldKeeps(s, ps, i, j);
  }

  /** A firing after the first poll of a hold comes at least the initial delay
      after the press. */
  lemma RepeatDelay(s: JumpState, ps: seq<Poll>, i: nat, j: nat)
    requires i < j < |ps| && Held(ps, i, j)
    requires FiresAt(s, ps, i) && FiresAt(s, ps, j)
    ensures ps[j].t - After(s, ps, j).pressedAt >= INITIAL_DELAY
  {
    HoldKeeps(s, ps, i, j);
  }

  /** The game's tick inputs are small enough for the collision scans to end:
      positions and the camera's move within 2^27, a vertical speed, gravity and
      jump speed within 2^26, and a time step in [0, 1]. */
  predicate TickBounded(p: Vec3, vy: real, gravity: real, jumpSpeed: real, halfW: real, height: real, dx: real, dz: real, dt: real)
  {
    var B := 134217728.0;
    var V := 67108864.0;
    && -B <= p.x <= B && -B <= p.y <= B && -B <= p.z <= B
    && -B <= dx <= B && -B <= dz <= B
    && -V <= vy <= V && 0.0 <= gravity <= V && -V <= jumpSpeed <= V
    && 0.0 <= halfW <= 1024.0 && 0.0 <= height <= 1024.0
    && 0.0 <= dt <= 1.0
  }

  /** Scaling a non-negative value by a time step in [0, 1] does not grow it. */
  lemma ScaleNonneg(v: real, dt: real, b: real)
    requires 0.0 <= v <= b && 0.0 <= dt <= 1.0
    ensures -b <= v * dt <= b
  {
    assert v - v * dt == v * (1.0 - dt);
    assert v * (1.0 - dt) >= 0.0;
    assert v * dt >= 0.0;
  }

  lemma ScaleNonpos(v: real, dt: real, b: real)
    requires -b <= v <= 0.0 && 0.0 <= dt <= 1.0
    ensures -b <= v * dt <= b
  {
    ScaleNonneg(-v, dt, b);
    assert v * dt == -((-v) * dt);
  }

  /** Scaling by a time step in [0, 1] does not grow a bound. */
  lemma ScaleBound(v: real, dt: real, b: real)
    requires -b <= v <= b && 0.0 <= dt <= 1.0
    ensures -b <= v * dt <= b
  {
    if v >= 0.0 {
      ScaleNonneg(v, dt, b);
    } else {
      ScaleNonpos(v, dt, b);
    }
  }

  /** The move of one tick: the camera's horizontal move and the vertical speed times the time step. */
  function TickDelta(dx: real, dz: real, vy: real, dt: real): Vec3
  {
    Vec3(dx, vy * dt, dz)
  }

  /** The vertical speed a tick moves with: gravity applied, or the jump speed when the jump fired. */
  function TickVy(vy: real, gravity: real, jumpSpeed: real, dt: real, jumped: bool): real
  {
    if jumped then jumpSpeed else vy - gravity * dt
  }

  /** Under `TickBounded` the tick's move satisfies `CollideBounded`. */
  lemma TickMoveBounded(p: Vec3, vy: real, gravity: real, jumpSpeed: real, halfW: real, height: real, dx: real, dz: real, dt: real, jumped: bool)
    requires TickBounded(p, vy, gravity, jumpSpeed, halfW, height, dx, dz, dt)
    ensures CollideBounded(p, TickDelta(dx, dz, TickVy(vy, gravity, jumpSpeed, dt, jumped), dt), halfW, height)
  {
    ScaleBound(gravity, dt, 67108864.0);
    var v := TickVy(vy, gravity, jumpSpeed, dt, jumped);
    ScaleBound(v, dt, 134217728.0);
  }

  /** The game: its jump-key fields, the world being played (`null` in the
      menu) and the player. */
  class Game {
    var jumpDown: bool
    var jumpFiredOnce: bool
    var jumpPressedAt: real
    var jumpLastRepeatAt: real
    var world: World?
    const player: Player

    function Jump(): JumpState
      reads this
    {
      JumpState(jumpDown, jumpFiredOnce, jumpPressedAt, jumpLastRepeatAt)
    }

    /** A new game: key released, timers at 0, no world, a new player. */
    constructor ()
      ensures Jump() == JumpState(false, false, 0.0, 0.0) && world == null && fresh(player)
      ensures player.vel == Vec3(0.0, 0.0, 0.0) && player.pos == Vec3(0.0, 0.0, 0.0) && !player.onGround
      ensures player.gravity == 100.0 && player.jumpSpeed == 20.0 && player.halfWidth == 0.3
    {
      jumpDown, jumpFiredOnce, jumpPressedAt, jumpLastRepeatAt := false, false, 0.0, 0.0;
      world := null;
      player := new Player();
    }

    /** `hasJump()`, with the key state and `glfwGetTime()` as parameters. */
    method HasJump(down: bool, t: real) returns (fire: bool)
      modifies this
      ensures Polled(Jump(), fire) == JumpStep(old(Jump()), down, t)
      ensures world == old(world)
    {
      if down {
        if !jumpDown {
          jumpDown := true;
          jumpFiredOnce := true;
          jumpPressedAt := t;
          jumpLastRepeatAt := t;
          return true;
        }
        if t - jumpPressedAt >= INITIAL_DELAY {
          if t - jumpLastRepeatAt >= REPEAT_INTERVAL {
            jumpLastRepeatAt := t;
            return true;
          }
        }
      } else {
        jumpDown := false;
        jumpFiredOnce := false;
        return false;
      }
      return false;
    }

    /** The player part of one tick of the loop: gravity lowers the vertical
        speed; only when on the ground is the key polled (`&&` short-circuits)
        and a firing jump sets the jump speed and leaves the ground; the body
        moves by the camera's horizontal move and the vertical speed times the
        time step; landing cancels a downward speed. `world` shows `view`. */
    method Tick(dx: real, dz: real, dt: real, height: real, down: bool, t: real, ghost view: imap<Cell, Short>)
      requires world != null ==> world.Valid() && Shows(world, view)
      requires world != null ==> TickBounded(player.pos, player.vel.y, player.gravity, player.jumpSpeed, player.halfWidth, height, dx, dz, dt)
      modifies this, player, world
      ensures world == old(world)
      ensures var g := old(player.onGround);
        var polled := JumpStep(old(Jump()), down, t);
        var vy := TickVy(old(player.vel.y), old(player.gravity), old(player.jumpSpeed), dt, g && polled.fire);
        var delta := TickDelta(dx, dz, vy, dt);
        && Jump() == (if g then polled.state else old(Jump()))
        && (world == null ==> player.pos == Vec3(old(player.pos).x + dx, old(player.pos).y + delta.y, old(player.pos).z + dz) && !player.onGround)
        && (world != null ==>
              world.Valid() && Shows(world, view) && Extends(world, old(world.chunks))
              && Motion(player.pos, player.onGround) == Collide(world.gen.pal, view, old(player.halfWidth), height, old(player.pos), delta)
              && (player.onGround <==> delta.y < -EPS))
        && player.vel == Vec3(old(player.vel).x, if player.onGround && vy < 0.0 then 0.0 else vy, old(player.vel).z)
      ensures player.gravity == old(player.gravity) && player.jumpSpeed == old(player.jumpSpeed) && player.halfWidth == old(player.halfWidth)
      ensures player.onGround ==> player.vel.y >= 0.0
    {
      label start:
      Accelerate(down, t, dt);
      var delta := Vec3(dx, player.vel.y * dt, dz);
      assert delta == TickDelta(dx, dz, player.vel.y, dt);
      if world != null {
        ShowsKept@start(Snapshot(world, view));
        CollideGround(world.gen.pal, view, player.halfWidth, height, player.pos, delta);
        TickMoveBounded(old(player.pos), old(player.vel.y), player.gravity, player.jumpSpeed, player.halfWidth, height, dx, dz, dt, old(player.onGround) && JumpStep(old(Jump()), down, t).fire);
      }
      player.MoveAndCollide(world, delta, height, view);
      Land(view);
      assert world != null ==> Motion(player.pos, player.onGround) == Collide(world.gen.pal, view, old(player.halfWidth), height, old(player.pos), delta);
    }

    /** Gravity, then the jump poll when on the ground: the vertical speed the tick moves with. */
    method Accelerate(down: bool, t: real, dt: real)
      modifies this, player
      ensures world == old(world)
      ensures var polled := JumpStep(old(Jump()), down, t);
        && Jump() == (if old(player.onGround) then polled.state else old(Jump()))
        && player.vel == old(player.vel).(y := TickVy(old(player.vel.y), old(player.gravity), old(player.jumpSpeed), dt, old(player.onGround) && polled.fire))
        && player.onGround == (old(player.onGround) && !polled.fire)
      ensures player.pos == old(player.pos) && player.gravity == old(player.gravity) && player.jumpSpeed == old(player.jumpSpeed) && player.halfWidth == old(player.halfWidth)
    {
      player.vel := player.vel.(y := player.vel.y - player.gravity * dt);
      if player.onGround {
        var fire := HasJump(down, t);
        if fire {
          player.vel := player.vel.(y := player.jumpSpeed);
          player.onGround := false;
        }
      }
    }

    /** Landing cancels a downward vertical speed; nothing else changes. */
    method Land(ghost view: imap<Cell, Short>)
      requires world != null ==> world.Valid() && Shows(world, view)
      modifies player
      ensures world != null ==> world.Valid() && Shows(world, view)
      ensures player.vel == old(player.vel).(y := if player.onGround && old(player.vel.y) < 0.0 then 0.0 else old(player.vel.y))
      ensures player.pos == old(player.pos) && player.onGround == old(player.onGround)
      ensures player.gravity == old(player.gravity) && player.jumpSpeed == old(player.jumpSpeed) && player.halfWidth == old(player.halfWidth)
    {
      label start:
      if player.onGround && player.vel.y < 0.0 {
        player.vel := player.vel.(y := 0.0);
      }
      if world != null {
        ShowsKept@start(Snapshot(world, view));
      }
    }
  }
}
