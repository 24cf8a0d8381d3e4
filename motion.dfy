/** The player's motion model: the lateral force chosen from the held keys, the jump impulse,
    and the gate (canJump plus a cooldown) that decides when a jump is allowed. */
module Motion {
  import opened Space

  /** Which steering intents are held. */
  datatype Keys = Keys(left: bool, right: bool)

  /** Force applied for a held key. */
  const Push: real := 320.0

  /** Spring constant of the centring force used when no key is held. */
  const Centering: real := 12.0

  /** Upward impulse of a jump, normal and with the super-jump power-up. */
  const JumpImpulse: real := 130.0
  const SuperJumpImpulse: real := 220.0

  /** Seconds before a jump is allowed again by the cooldown alone. */
  const JumpCooldown: real := 0.7

  /** At or below this height the ball counts as touching the ground. */
  const GroundHeight: real := 1.1

  /** Below this height the ball has fallen off the track. */
  const FallHeight: real := -10.0

  /** The ball after updateTrack pushes it forward by the distance `speed` covers in `dt`
      seconds: only its forward coordinate changes, and it never moves back for a non-negative
      speed and frame time. */
  function Forward(b: Vec3, speed: real, dt: real): (r: Vec3)
    ensures r.x == b.x && r.y == b.y
    ensures speed >= 0.0 && dt >= 0.0 ==> r.z >= b.z
  {
    b.(z := b.z + speed * dt)
  }

  /** The lateral forces updateBall applies in one frame, in order, for a ball at lateral
      position `x`. */
  function LateralForces(keys: Keys, x: real): (forces: seq<real>)
    ensures |forces| == if keys.left && keys.right then 2 else 1
    ensures keys.left && !keys.right ==> forces == [-Push]
    ensures keys.right && !keys.left ==> forces == [Push]
    ensures keys.left && keys.right ==> Total(forces) == 0.0
    ensures !keys.left && !keys.right ==> Total(forces) * x <= 0.0 && (Total(forces) == 0.0 <==> x == 0.0)
  {
    assert Total([-Push, Push]) == -Push + Total([Push]) == 0.0;
    (if keys.left then [-Push] else [])
      + (if keys.right then [Push] else [])
      + (if !keys.left && !keys.right then [-Centering * x] else [])
  }

  /** Net force of a list of forces applied in the same frame. */
  function Total(forces: seq<real>): real
  {
    if forces == [] then 0.0 else forces[0] + Total(forces[1..])
  }

  /** With no key held, the centring force is a spring: proportional to the displacement and
      pulling back toward the centre line. */
  lemma CenteringIsSpring(x: real, y: real)
    ensures Total(LateralForces(Keys(false, false), x)) - Total(LateralForces(Keys(false, false), y)) == -Centering * (x - y)
  {
    assert LateralForces(Keys(false, false), x) == [-Centering * x];
    assert LateralForces(Keys(false, false), y) == [-Centering * y];
  }

  /** The impulse jump() applies. */
  function Impulse(superJump: bool): (r: real)
    ensures r >= JumpImpulse
    ensures superJump <==> r > JumpImpulse
  {
    if superJump then SuperJumpImpulse else JumpImpulse
  }

  /** Whether a jump is allowed, and the cooldown still to run. */
  datatype JumpGate = JumpGate(canJump: bool, cooldown: real)

  /** The gate right after jump(). */
  const Jumped: JumpGate := JumpGate(false, JumpCooldown)

  /** The cooldown and ground-contact block of updateBall for a frame of `dt` seconds that ends
      with the ball at height `y`: the cooldown only runs while jumping is blocked, jumping is
      allowed again once it has run out, and ground contact allows it at any time. */
  function Settle(g: JumpGate, dt: real, y: real): (r: JumpGate)
    ensures r.canJump <==> g.canJump || g.cooldown - dt <= 0.0 || y <= GroundHeight
    ensures r.cooldown == if g.canJump then g.cooldown else g.cooldown - dt
  {
    var cooldown := if g.canJump then g.cooldown else g.cooldown - dt;
    var canJump := g.canJump || cooldown <= 0.0;
    JumpGate(canJump || y <= GroundHeight, cooldown)
  }

  /** One frame as the jump gate sees it: its duration and the ball's height at its end. */
  datatype Frame = Frame(dt: real, y: real)

  /** The gate after a sequence of frames. */
  function SettleAll(g: JumpGate, frames: seq<Frame>): JumpGate
    decreases |frames|
  {
    if frames == [] then g else SettleAll(Settle(g, frames[0].dt, frames[0].y), frames[1..])
  }

  /** Total duration of a sequence of frames. */
  function Elapsed(frames: seq<Frame>): real
    decreases |frames|
  {
    if frames == [] then 0.0 else frames[0].dt + Elapsed(frames[1..])
  }

  /** After a jump, as long as the ball stays in the air and frames of non-negative length add
      up to less than the cooldown, jumping stays blocked and the cooldown has run down by
      exactly the elapsed time. */
  lemma {:induction false} AirborneLockout(g: JumpGate, frames: seq<Frame>)
    requires !g.canJump
    requires forall i :: 0 <= i < |frames| ==> frames[i].dt >= 0.0 && frames[i].y > GroundHeight
    requires Elapsed(frames) < g.cooldown
    ensures SettleAll(g, frames) == JumpGate(false, g.cooldown - Elapsed(frames))
    decreases |frames|
  {
    if frames != [] {
      var f := frames[0];
      ElapsedNonNegative(frames[1..]);
      var g' := Settle(g, f.dt, f.y);
      assert g' == JumpGate(false, g.cooldown - f.dt);
      AirborneLockout(g', frames[1..]);
    }
  }

  lemma {:induction false} ElapsedNonNegative(frames: seq<Frame>)
    requires forall i :: 0 <= i < |frames| ==> frames[i].dt >= 0.0
    ensures Elapsed(frames) >= 0.0
    decreases |frames|
  {
    if frames != [] {
      ElapsedNonNegative(frames[1..]);
    }
  }

  /** Ground contact at the end of any frame allows a jump, however much cooldown is left. */
  lemma GroundResetsGate(g: JumpGate, frames: seq<Frame>)
    requires frames != [] && frames[|frames| - 1].y <= GroundHeight
    ensures SettleAll(g, frames).canJump
    decreases |frames|
  {
    if |frames| > 1 {
      GroundResetsGate(Settle(g, frames[0].dt, frames[0].y), frames[1..]);
    }
  }
}
