/** The player: a collider that moves, with a velocity and a grounded flag.
    `Kin` is the player's kinematic state as a value; the class `Player`
    holds the same state in fields and its methods update it in place. */
module Players {
  import opened Vectors
  import opened Colliders

  const Gravity: real := 20.0
  const JumpSpeed: real := 8.0
  const MoveSpeed: real := 5.0

  /** Centre of the player's box, velocity, and whether it stands on something. */
  datatype Kin = Kin(pos: Vec3, vel: Vec3, grounded: bool)

  /** A jump fires only from the ground: it sets the upward speed and leaves
      the ground; in the air it does nothing. */
  function AfterJump(k: Kin): (r: Kin)
    ensures !r.grounded && r.pos == k.pos
    ensures k.grounded ==> r.vel == Vec3(k.vel.x, JumpSpeed, k.vel.z)
    ensures !k.grounded ==> r == k
  {
    if k.grounded then k.(vel := k.vel.(y := JumpSpeed), grounded := false) else k
  }

  /** A second jump straight after the first has no effect. */
  lemma JumpOnce(k: Kin)
    ensures AfterJump(AfterJump(k)) == AfterJump(k)
  {
  }

  /** One integration step of length `dt`: gravity lowers the vertical speed,
      then the position moves by the new velocity (semi-implicit Euler). */
  function AfterGravity(k: Kin, dt: real): (r: Kin)
    ensures r.vel == Vec3(k.vel.x, k.vel.y - Gravity * dt, k.vel.z)
    ensures r.pos == Add(k.pos, Scale(r.vel, dt)) && r.grounded == k.grounded
  {
    var vel := k.vel.(y := k.vel.y - Gravity * dt);
    k.(vel := vel, pos := Add(k.pos, Scale(vel, dt)))
  }

  /** Over a positive step, the vertical speed strictly drops and the height
      changes by the old vertical speed times `dt` less `Gravity * dt * dt`. */
  lemma GravityPullsDown(k: Kin, dt: real)
    requires dt > 0.0
    ensures AfterGravity(k, dt).vel.y < k.vel.y
    ensures AfterGravity(k, dt).pos.y == k.pos.y + k.vel.y * dt - Gravity * dt * dt
    ensures AfterGravity(k, dt).pos.x == k.pos.x + k.vel.x * dt
    ensures AfterGravity(k, dt).pos.z == k.pos.z + k.vel.z * dt
  {
    assert (k.vel.y - Gravity * dt) * dt == k.vel.y * dt - Gravity * dt * dt;
  }

  /** Velocity integrates additively: two steps change it as one step of the
      summed length would. */
  lemma GravityVelocityAdditive(k: Kin, dt1: real, dt2: real)
    ensures AfterGravity(AfterGravity(k, dt1), dt2).vel == AfterGravity(k, dt1 + dt2).vel
  {
    assert Gravity * dt1 + Gravity * dt2 == Gravity * (dt1 + dt2);
  }

  class Player {
    const collider: Collider
    var velocity: Vec3
    var isGrounded: bool

    /** The kinematic state held by this player. */
    function State(): Kin
      reads this, collider`pos
    {
      Kin(collider.pos, velocity, isGrounded)
    }

    /** A player at rest in the air, with a fresh populated collider. */
    constructor (size: Vec3, pos: Vec3)
      ensures fresh(collider) && collider.Valid()
      ensures collider.size == size && collider.pos == pos && !collider.isColliding
      ensures velocity == Zero && !isGrounded
    {
      collider := new Collider(size, pos);
      velocity := Zero;
      isGrounded := false;
    }

    method UpdateGravity(dt: real)
      modifies this`velocity, collider`pos
      ensures velocity == Vec3(old(velocity.x), old(velocity.y) - Gravity * dt, old(velocity.z))
      ensures collider.pos == Add(old(collider.pos), Scale(velocity, dt))
      ensures State() == AfterGravity(old(State()), dt)
    {
      velocity := velocity.(y := velocity.y - Gravity * dt);
      collider.pos := Add(collider.pos, Scale(velocity, dt));
    }

    method Jump()
      modifies this`velocity, this`isGrounded
      ensures old(isGrounded) ==> velocity == old(velocity).(y := JumpSpeed) && !isGrounded
      ensures !old(isGrounded) ==> velocity == old(velocity) && isGrounded == old(isGrounded)
      ensures State() == AfterJump(old(State()))
    {
      if isGrounded {
        velocity := velocity.(y := JumpSpeed);
        isGrounded := false;
      }
    }
  }
}
