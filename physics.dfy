/**
 * Per-frame motion of a thrown ball: gravity, advance by velocity, and the
 * table bounce (script.js lines 80-89). Positions and velocities are exact
 * reals; the browser's double-precision rounding is not modelled.
 */
module Physics {

  /** Downward acceleration added to the vertical velocity every frame. */
  const GRAVITY: real := -0.005
  /** Fraction of vertical speed kept by a bounce. */
  const RESTITUTION: real := 0.6
  /** Horizontal damping applied on each bounce. */
  const FRICTION: real := 0.96
  /** Radius of a ball; also its resting height above the table. */
  const BALL_RADIUS: real := 0.16

  datatype Vec3 = Vec3(x: real, y: real, z: real)
  {
    function Add(v: Vec3): Vec3 {
      Vec3(x + v.x, y + v.y, z + v.z)
    }
  }

  /** A ball in flight: where it is and how it moves per frame. */
  datatype Ball = Ball(pos: Vec3, vel: Vec3)

  /** Where every launched ball starts (script.js line 154). */
  const LAUNCH_ORIGIN: Vec3 := Vec3(0.0, BALL_RADIUS + 0.1, 6.0)

  /** A freshly launched ball moving with the current aim velocity. */
  function Launched(aim: Vec3): (b: Ball)
    ensures b.pos == LAUNCH_ORIGIN && b.vel == aim
    ensures b.pos.y > BALL_RADIUS
  {
    Ball(LAUNCH_ORIGIN, aim)
  }

  /** True when this frame's move ends at or below resting height. */
  predicate Bounces(b: Ball) {
    b.pos.y + b.vel.y + GRAVITY <= BALL_RADIUS
  }

  /**
   * One frame of motion: gravity, then the move, then, if the ball ends at
   * or below its resting height, clamp it to that height, reflect and damp
   * its vertical speed and damp its horizontal speed.
   */
  function Step(b: Ball): (r: Ball)
    ensures r.pos.y >= BALL_RADIUS
    ensures r.pos.x == b.pos.x + b.vel.x && r.pos.z == b.pos.z + b.vel.z
    ensures !Bounces(b) ==> r.pos.y == b.pos.y + b.vel.y + GRAVITY
  {
    var v := b.vel.(y := b.vel.y + GRAVITY);
    var p := b.pos.Add(v);
    if p.y <= BALL_RADIUS then
      Ball(p.(y := BALL_RADIUS), Vec3(v.x * FRICTION, v.y * -RESTITUTION, v.z * FRICTION))
    else
      Ball(p, v)
  }

  function Abs(x: real): real {
    if x < 0.0 then -x else x
  }

  /** Away from the table the vertical speed drops by exactly GRAVITY per frame. */
  lemma GravityWithoutBounce(b: Ball)
    requires !Bounces(b)
    ensures Step(b).vel.y == b.vel.y + GRAVITY
    ensures Step(b).vel.x == b.vel.x && Step(b).vel.z == b.vel.z
  {
  }

  /**
   * A bounce keeps RESTITUTION of the vertical speed (after gravity), sends a
   * falling ball upwards, and slows the horizontal motion by FRICTION.
   */
  lemma BounceLosesEnergy(b: Ball)
    requires Bounces(b)
    ensures Step(b).pos.y == BALL_RADIUS
    ensures Abs(Step(b).vel.y) == RESTITUTION * Abs(b.vel.y + GRAVITY)
    ensures Abs(Step(b).vel.y) <= Abs(b.vel.y + GRAVITY)
    ensures b.vel.y + GRAVITY < 0.0 ==> Step(b).vel.y > 0.0
    ensures Abs(Step(b).vel.x) <= Abs(b.vel.x) && Abs(Step(b).vel.z) <= Abs(b.vel.z)
  {
  }

  /**
   * The bounce clamp applies at every x and z, also beyond the table's
   * edges, so no moved ball is ever below resting height. The frame loop's
   * test for a ball that has fallen below height -5 therefore never fires.
   */
  lemma NeverBelowFloor(b: Ball)
    ensures !(Step(b).pos.y < -5.0)
  {
  }
}
