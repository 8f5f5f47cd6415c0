/** Small helper datatypes shared by every component. */
module Wrappers {
  /** An optional value: a Unity reference that may be null, a sensor output that may be missing. */
  datatype Option<+T> = None | Some(value: T)
}

/** Engine vector and bounds values, with floats taken as exact reals. */
module Geometry {

  /** A Unity `Vector3`. */
  datatype Vec3 = Vec3(x: real, y: real, z: real)

  const Zero: Vec3 := Vec3(0.0, 0.0, 0.0)
  const Left: Vec3 := Vec3(-1.0, 0.0, 0.0)
  const Right: Vec3 := Vec3(1.0, 0.0, 0.0)
  const Forward: Vec3 := Vec3(0.0, 0.0, 1.0)
  const Back: Vec3 := Vec3(0.0, 0.0, -1.0)

  /** `v.sqrMagnitude`; `v.magnitude > t` is `SqrMagnitude(v) > t * t` for t >= 0. */
  function SqrMagnitude(v: Vec3): real
  {
    v.x * v.x + v.y * v.y + v.z * v.z
  }

  /** The animator's walking test `v.magnitude > 0.1`, squared on both sides. */
  predicate IsWalkingSpeed(v: Vec3)
  {
    SqrMagnitude(v) > 0.1 * 0.1
  }

  /** Squared speed in the ground plane (x and z only). */
  function PlanarSqrSpeed(v: Vec3): real
  {
    v.x * v.x + v.z * v.z
  }

  /** A collider's axis-aligned `Bounds`; Unity keeps `min <= max` on every axis. */
  datatype Bounds = Bounds(min: Vec3, max: Vec3) {
    predicate Valid()
    {
      min.x <= max.x && min.y <= max.y && min.z <= max.z
    }

    /** The floor has a non-degenerate ground rectangle, so normalising by its width and depth is defined. */
    predicate HasArea()
    {
      min.x < max.x && min.z < max.z
    }
  }

  /** The value bounds of a `default(Bounds)` field: everything at the origin. */
  const EmptyBounds: Bounds := Bounds(Zero, Zero)

  /** `r` is a possible result of the float draw `Random.Range(a, b)`: inclusive at both ends, in either order. */
  predicate Between(r: real, a: real, b: real)
  {
    if a <= b then a <= r <= b else b <= r <= a
  }

  /**
   * Velocity composition shared by the agent's `ApplyMovement` and the manual
   * controller's `FixedUpdate`: the planar part is `movement * speed`, the
   * vertical part is kept from the rigidbody (gravity).
   */
  function ComposeVelocity(movement: Vec3, speed: real, current: Vec3): (v: Vec3)
    ensures v.y == current.y
  {
    Vec3(movement.x * speed, current.y, movement.z * speed)
  }

  /** The composed velocity's planar speed is `speed` times the movement's planar length. */
  lemma ComposedPlanarSpeed(movement: Vec3, speed: real, current: Vec3)
    ensures PlanarSqrSpeed(ComposeVelocity(movement, speed, current)) == speed * speed * PlanarSqrSpeed(movement)
  {
    var v := ComposeVelocity(movement, speed, current);
    assert v.x * v.x == speed * speed * (movement.x * movement.x);
    assert v.z * v.z == speed * speed * (movement.z * movement.z);
  }

  /** A unit vector along one ground axis. */
  predicate IsGroundAxis(m: Vec3)
  {
    m == Left || m == Right || m == Forward || m == Back
  }

  /** Moving along a ground axis gives planar speed exactly `speed` and keeps the fall speed. */
  lemma AxisMovementHasFullSpeed(movement: Vec3, speed: real, current: Vec3)
    requires IsGroundAxis(movement)
    ensures PlanarSqrSpeed(ComposeVelocity(movement, speed, current)) == speed * speed
    ensures ComposeVelocity(movement, speed, current).y == current.y
  {
  }

  /**
   * The value `transform.eulerAngles.y` reads back for a rotation built with
   * `Quaternion.Euler(0, yaw, 0)`: the yaw brought into [0, 360).
   */
  function EulerYaw(yaw: real): (r: real)
    ensures 0.0 <= r < 360.0
    ensures 0.0 <= yaw < 360.0 ==> r == yaw
    ensures -360.0 <= yaw < 0.0 ==> r == yaw + 360.0
    ensures 360.0 <= yaw < 720.0 ==> r == yaw - 360.0
    decreases if yaw < 0.0 then (-yaw).Floor + 1 else 0, if yaw >= 360.0 then yaw.Floor else 0
  {
    if yaw < 0.0 then EulerYaw(yaw + 360.0)
    else if yaw >= 360.0 then EulerYaw(yaw - 360.0)
    else yaw
  }

  /** Reading a heading back and setting it again does not turn the object. */
  lemma EulerYawIdempotent(yaw: real)
    ensures EulerYaw(EulerYaw(yaw)) == EulerYaw(yaw)
  {
  }
}
