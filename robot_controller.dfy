/**
 * The manual controller (`RobotController`): axis input picks the heading by
 * a sign-priority rule, and the physics step drives the rigidbody at
 * `moveSpeed` along the input direction while gravity keeps acting.
 */
module Control {
  import opened Geometry
  import Agent

  /**
   * `m` is `new Vector3(horizontal, 0, vertical).normalized`: zero for no
   * input, otherwise the unit vector pointing along the input.
   */
  predicate IsDirectionOf(m: Vec3, horizontal: real, vertical: real)
  {
    && m.y == 0.0
    && (horizontal == 0.0 && vertical == 0.0 ==> m == Zero)
    && (horizontal != 0.0 || vertical != 0.0 ==>
          && SqrMagnitude(m) == 1.0
          && m.x * vertical == m.z * horizontal
          && m.x * horizontal >= 0.0 && m.z * vertical >= 0.0)
  }

  /** The heading rule: a nonzero horizontal input decides, then a nonzero vertical one; with neither the heading stays. */
  function InputYaw(horizontal: real, vertical: real, current: real): (yaw: real)
    ensures horizontal != 0.0 ==> yaw == (if horizontal > 0.0 then 90.0 else -90.0)
    ensures horizontal == 0.0 && vertical != 0.0 ==> yaw == (if vertical > 0.0 then 0.0 else 180.0)
    ensures horizontal == 0.0 && vertical == 0.0 ==> yaw == current
  {
    if horizontal > 0.0 then 90.0
    else if horizontal < 0.0 then -90.0
    else if vertical > 0.0 then 0.0
    else if vertical < 0.0 then 180.0
    else current
  }

  /** The agent action that moves the way the dominant input axis points (0 for no input). */
  function AxisAction(horizontal: real, vertical: real): (action: int)
    ensures 0 <= action < Agent.ActionCount
    ensures action == 0 <==> horizontal == 0.0 && vertical == 0.0
  {
    if horizontal > 0.0 then 2
    else if horizontal < 0.0 then 1
    else if vertical > 0.0 then 3
    else if vertical < 0.0 then 4
    else 0
  }

  /** The controller turns the robot to exactly the yaw the agent's action for the same direction sets. */
  lemma InputYawMatchesAgent(horizontal: real, vertical: real, current: real)
    ensures InputYaw(horizontal, vertical, current) == Agent.ActionYaw(AxisAction(horizontal, vertical), current)
  {
  }

  /** With an input along one axis, the controller faces the direction it moves in. */
  lemma FacesSingleAxisInput(horizontal: real, vertical: real, m: Vec3, current: real)
    requires IsDirectionOf(m, horizontal, vertical)
    requires (horizontal == 0.0) != (vertical == 0.0)
    ensures Agent.Facing(EulerYaw(InputYaw(horizontal, vertical, current))) == m
  {
    if horizontal != 0.0 {
      assert m.z == 0.0;
      UnitSquare(m.x);
    } else {
      assert m.x == 0.0;
      UnitSquare(m.z);
    }
  }

  lemma UnitSquare(a: real)
    requires a * a == 1.0
    ensures a == 1.0 || a == -1.0
  {
    if a >= 0.0 {
      assert a * a - 1.0 == (a - 1.0) * (a + 1.0);
    } else {
      assert a * a - 1.0 == (a + 1.0) * (a - 1.0);
    }
  }

  /** The walking flag (`magnitude > 0.1`) is set exactly when some input is held. */
  lemma WalkingIffInput(m: Vec3, horizontal: real, vertical: real)
    requires IsDirectionOf(m, horizontal, vertical)
    ensures IsWalkingSpeed(m) <==> horizontal != 0.0 || vertical != 0.0
  {
  }

  class RobotController {
    const moveSpeed: real
    var movement: Vec3
    /** The yaw last written to `transform.rotation`. */
    var yaw: real
    /** The rigidbody's `linearVelocity`, as the physics engine leaves it. */
    var velocity: Vec3
    /** The animator's `IsWalking` parameter. */
    var isWalking: bool

    constructor (moveSpeed: real, yaw: real, velocity: Vec3)
      ensures this.moveSpeed == moveSpeed && this.yaw == yaw && this.velocity == velocity
      ensures movement == Zero && !isWalking
    {
      this.moveSpeed := moveSpeed;
      this.yaw := yaw;
      this.velocity := velocity;
      movement := Zero;
      isWalking := false;
    }

    /**
     * One frame of input. `normalized` is the engine's normalisation of the
     * input vector; the heading is read back through `eulerAngles.y`.
     */
    method Update(horizontal: real, vertical: real, normalized: Vec3)
      requires IsDirectionOf(normalized, horizontal, vertical)
      modifies this
      ensures movement == normalized
      ensures isWalking == IsWalkingSpeed(movement)
      ensures isWalking <==> horizontal != 0.0 || vertical != 0.0
      ensures yaw == InputYaw(horizontal, vertical, EulerYaw(old(yaw)))
      ensures horizontal == 0.0 && vertical == 0.0 ==> EulerYaw(yaw) == EulerYaw(old(yaw))
      ensures velocity == old(velocity)
    {
      movement := normalized;
      WalkingIffInput(normalized, horizontal, vertical);
      isWalking := IsWalkingSpeed(movement);
      var yRotation := EulerYaw(yaw);
      if horizontal > 0.0 {
        yRotation := 90.0;
      } else if horizontal < 0.0 {
        yRotation := -90.0;
      } else if vertical > 0.0 {
        yRotation := 0.0;
      } else if vertical < 0.0 {
        yRotation := 180.0;
      } else {
        EulerYawIdempotent(yaw);
      }
      yaw := yRotation;
    }

    method FixedUpdate()
      modifies this`velocity
      ensures velocity == ComposeVelocity(movement, moveSpeed, old(velocity))
    {
      var v := Vec3(movement.x * moveSpeed, movement.y * moveSpeed, movement.z * moveSpeed);
      v := v.(y := velocity.y);
      velocity := v;
    }
  }
}
