/**
 * The learning agent (`RobotAgent`): maps a discrete action to a movement and a
 * heading, adds up the shaped rewards of one decision step, keeps the episode
 * clock, and builds the observation vector.
 */
module Agent {
  import opened Wrappers
  import opened Geometry
  import opened Spawning

  const IdlePenalty: real := -0.01
  /** Scale of the per-ray proximity reward. */
  const RayScale: real := 0.005
  const GoodSphereReward: real := 3.0
  const BadSphereReward: real := -3.0
  const FallPenalty: real := -10.0
  /** The agent has fallen off once its y position is below this. */
  const FallThreshold: real := 0.0
  /** Distance kept from the floor's edges when the agent is placed at episode start. */
  const PlacementInset: real := 1.5
  /** Number of actions in the action map (0 = nothing, 1 = left, 2 = right, 3 = forward, 4 = back). */
  const ActionCount: int := 5
  /** Ray tag indices of the detectable tags (tag 2, the floor, is not rewarded). */
  const GoodSphereTag: int := 0
  const BadSphereTag: int := 1

  /** The action map: the movement of each action. */
  const ActionMap: seq<Vec3> := [Zero, Left, Right, Forward, Back]

  /** The movement an action selects; every axis of the map is a unit vector, so `.normalized` leaves it as it is. */
  function ActionMovement(action: int): (m: Vec3)
    ensures IsGroundAxis(m) <==> 0 < action < ActionCount
    ensures !IsGroundAxis(m) ==> m == Zero
  {
    if 0 < action < |ActionMap| then ActionMap[action] else Zero
  }

  /** The yaw `UpdateRotation` sets for an action; other actions leave the yaw as it is. */
  function ActionYaw(action: int, current: real): (yaw: real)
    ensures 0 < action < ActionCount ==> IsCardinal(EulerYaw(yaw))
    ensures !(0 < action < ActionCount) ==> yaw == current
  {
    match action
    case 1 => -90.0
    case 2 => 90.0
    case 3 => 0.0
    case 4 => 180.0
    case _ => current
  }

  /**
   * The action table: 0 idles (zero movement, the idle penalty), 1 to 4 move
   * left, right, forward and back with yaws -90, 90, 0 and 180, and any other
   * index moves nowhere, costs nothing and keeps the yaw.
   */
  lemma ActionTable(action: int, current: real, rays: Option<seq<RayOutput>>, y: real)
    ensures action == 0 ==> ActionMovement(action) == Zero && ActionYaw(action, current) == current
    ensures action == 0 ==> StepReward(action, rays, y) == -0.01 + StepReward(ActionCount, rays, y)
    ensures action == 1 ==> ActionMovement(action) == Left && ActionYaw(action, current) == -90.0
    ensures action == 2 ==> ActionMovement(action) == Right && ActionYaw(action, current) == 90.0
    ensures action == 3 ==> ActionMovement(action) == Forward && ActionYaw(action, current) == 0.0
    ensures action == 4 ==> ActionMovement(action) == Back && ActionYaw(action, current) == 180.0
    ensures !(0 <= action < ActionCount) ==>
              ActionMovement(action) == Zero && ActionYaw(action, current) == current &&
              StepReward(action, rays, y) == StepReward(ActionCount, rays, y)
  {
  }

  /** A heading reading that the observation's one-hot recognises. */
  predicate IsCardinal(heading: real)
  {
    heading == 0.0 || heading == 90.0 || heading == 180.0 || heading == 270.0
  }

  /** The ground direction an object with heading reading `heading` (a cardinal one) faces. */
  function Facing(heading: real): Vec3
  {
    if heading == 0.0 then Forward
    else if heading == 90.0 then Right
    else if heading == 180.0 then Back
    else if heading == 270.0 then Left
    else Zero
  }

  /** After a moving action the agent faces exactly the direction it moves in. */
  lemma FacesDirectionOfMovement(action: int, current: real)
    requires 0 < action < ActionCount
    ensures IsCardinal(EulerYaw(ActionYaw(action, current)))
    ensures Facing(EulerYaw(ActionYaw(action, current))) == ActionMovement(action)
  {
  }

  /**
   * The heading one-hot in observation order (forward, backward, left,
   * right), keyed by exact equality of the heading reading.
   */
  function HeadingOneHot(heading: real): (h: seq<real>)
    ensures |h| == 4
    ensures forall i :: 0 <= i < 4 ==> h[i] == 0.0 || h[i] == 1.0
    ensures h[0] + h[1] + h[2] + h[3] == if IsCardinal(heading) then 1.0 else 0.0
    ensures h[0] == 1.0 <==> heading == 0.0
    ensures h[1] == 1.0 <==> heading == 180.0
    ensures h[2] == 1.0 <==> heading == 270.0
    ensures h[3] == 1.0 <==> heading == 90.0
  {
    [if heading == 0.0 then 1.0 else 0.0,
     if heading == 180.0 then 1.0 else 0.0,
     if heading == 270.0 then 1.0 else 0.0,
     if heading == 90.0 then 1.0 else 0.0]
  }

  // ------------------------------------------------------------------ rewards

  /** One entry of the ray sensor's `RayOutputs`. */
  datatype RayOutput = RayOutput(
    hasHit: bool,
    hitGameObjectPresent: bool,
    hitTaggedObject: bool,
    hitTagIndex: int,
    hitFraction: real)

  /** The proximity reward of one ray: closer good spheres reward, closer bad spheres penalise, anything else is neutral. */
  function RayReward(ray: RayOutput): (r: real)
    ensures r != 0.0 ==> ray.hasHit && ray.hitGameObjectPresent && ray.hitTaggedObject
    ensures ray.hasHit && ray.hitGameObjectPresent && ray.hitTaggedObject && ray.hitTagIndex == GoodSphereTag ==>
              r == RayScale * (1.0 - ray.hitFraction)
    ensures ray.hasHit && ray.hitGameObjectPresent && ray.hitTaggedObject && ray.hitTagIndex == BadSphereTag ==>
              r == -RayScale * (1.0 - ray.hitFraction)
    ensures ray.hitTagIndex != GoodSphereTag && ray.hitTagIndex != BadSphereTag ==> r == 0.0
  {
    if !ray.hasHit || !ray.hitGameObjectPresent then 0.0
    else if ray.hitTaggedObject then
      var distance := 1.0 - ray.hitFraction;
      if ray.hitTagIndex == GoodSphereTag then RayScale * distance
      else if ray.hitTagIndex == BadSphereTag then -RayScale * distance
      else 0.0
    else 0.0
  }

  /** Total proximity reward of a sweep of rays. */
  function RaySum(rays: seq<RayOutput>): real
  {
    if rays == [] then 0.0 else RaySum(rays[..|rays| - 1]) + RayReward(rays[|rays| - 1])
  }

  /** Proximity reward of a step: nothing when the sensor or its output is missing. */
  function ProximityReward(rays: Option<seq<RayOutput>>): real
  {
    match rays
    case None => 0.0
    case Some(r) => RaySum(r)
  }

  /** A ray's hit fraction is a fraction of the ray's length. */
  predicate FractionsInRange(rays: seq<RayOutput>)
  {
    forall i :: 0 <= i < |rays| ==> 0.0 <= rays[i].hitFraction <= 1.0
  }

  /** Each ray moves the proximity reward by at most 0.005, in either direction. */
  lemma {:induction false} RaySumBounded(rays: seq<RayOutput>)
    requires FractionsInRange(rays)
    ensures -RayScale * |rays| as real <= RaySum(rays) <= RayScale * |rays| as real
  {
    if rays != [] {
      var init := rays[..|rays| - 1];
      assert FractionsInRange(init) by {
        forall i | 0 <= i < |init| ensures 0.0 <= init[i].hitFraction <= 1.0 {
          assert init[i] == rays[i];
        }
      }
      RaySumBounded(init);
    }
  }

  /** A ray that hit a present, tagged good sphere before the end of its length. */
  predicate IsCloseGoodHit(ray: RayOutput)
  {
    ray.hasHit && ray.hitGameObjectPresent && ray.hitTaggedObject && ray.hitTagIndex == GoodSphereTag
      && ray.hitFraction < 1.0
  }

  /** Only hits on the good-sphere tag can make the proximity reward positive. */
  lemma {:induction false} PositiveProximityNeedsGoodHit(rays: seq<RayOutput>)
    requires FractionsInRange(rays)
    requires RaySum(rays) > 0.0
    ensures exists i :: 0 <= i < |rays| && IsCloseGoodHit(rays[i])
  {
    var init, last := rays[..|rays| - 1], rays[|rays| - 1];
    if RayReward(last) > 0.0 {
      assert last.hitTagIndex == GoodSphereTag || last.hitTagIndex == BadSphereTag;
      assert rays[|rays| - 1] == last;
    } else {
      assert FractionsInRange(init) by {
        forall i | 0 <= i < |init| ensures 0.0 <= init[i].hitFraction <= 1.0 {
          assert init[i] == rays[i];
        }
      }
      PositiveProximityNeedsGoodHit(init);
      var i :| 0 <= i < |init| && IsCloseGoodHit(init[i]);
      assert rays[i] == init[i];
    }
  }

  /** The reward of one decision step, in the order the step adds it. */
  function StepReward(action: int, rays: Option<seq<RayOutput>>, y: real): (r: real)
    ensures r <= ProximityReward(rays)
    ensures r < ProximityReward(rays) <==> action == 0 || y < FallThreshold
  {
    (if action == 0 then IdlePenalty else 0.0) + ProximityReward(rays)
      + (if y < FallThreshold then FallPenalty else 0.0)
  }

  /**
   * Idling with nothing in sight and on the floor costs exactly 0.01; an
   * out-of-range action costs nothing; falling costs exactly 10 more.
   */
  lemma StepRewardCases(action: int, rays: Option<seq<RayOutput>>, y: real)
    ensures ProximityReward(rays) == 0.0 && y >= FallThreshold ==>
              StepReward(action, rays, y) == if action == 0 then -0.01 else 0.0
    ensures StepReward(action, rays, y) ==
              StepReward(action, rays, FallThreshold) + (if y < FallThreshold then -10.0 else 0.0)
  {
  }

  /** Collection reward of a sphere of the given kind. */
  function CollectionReward(isGood: bool): real
  {
    if isGood then GoodSphereReward else BadSphereReward
  }

  // --------------------------------------------------------------- keyboard

  /** The eight keys `Heuristic` polls. */
  datatype Keys = Keys(a: bool, leftArrow: bool, d: bool, rightArrow: bool,
                       w: bool, upArrow: bool, s: bool, downArrow: bool)
  {
    predicate LeftHeld() { a || leftArrow }
    predicate RightHeld() { d || rightArrow }
    predicate ForwardHeld() { w || upArrow }
    predicate BackHeld() { s || downArrow }
  }

  // ------------------------------------------------------------------ object

  class RobotAgent {
    const moveSpeed: real
    const episodeTimeout: real
    /** The floor's collider bounds, or None when no floor is assigned. */
    const floor: Option<Bounds>
    const hasAnimator: bool
    const goalSpawner: GoalSpawner

    /** `transform.position` and the rigidbody's velocities, as the physics engine leaves them. */
    var position: Vec3
    var velocity: Vec3
    var angularVelocity: Vec3
    var movement: Vec3
    var yRotation: real
    var episodeTimer: real
    /** What `AddReward` has accumulated. */
    var cumulativeReward: real
    /** Set once `EndEpisode` has been requested. */
    var ended: bool
    /** The animator's `IsWalking` parameter. */
    var isWalking: bool

    /** `Initialize`: the yaw starts as the transform's heading reading. */
    constructor (moveSpeed: real, episodeTimeout: real, floor: Option<Bounds>, hasAnimator: bool,
                 goalSpawner: GoalSpawner, position: Vec3, heading: real)
      ensures this.moveSpeed == moveSpeed && this.episodeTimeout == episodeTimeout
      ensures this.floor == floor && this.hasAnimator == hasAnimator && this.goalSpawner == goalSpawner
      ensures this.position == position && velocity == Zero && angularVelocity == Zero
      ensures movement == Zero && yRotation == heading && episodeTimer == 0.0
      ensures cumulativeReward == 0.0 && !ended && !isWalking
    {
      this.moveSpeed := moveSpeed;
      this.episodeTimeout := episodeTimeout;
      this.floor := floor;
      this.hasAnimator := hasAnimator;
      this.goalSpawner := goalSpawner;
      this.position := position;
      velocity := Zero;
      angularVelocity := Zero;
      movement := Zero;
      yRotation := heading;
      episodeTimer := 0.0;
      cumulativeReward := 0.0;
      ended := false;
      isWalking := false;
    }

    method AddReward(r: real)
      modifies this`cumulativeReward
      ensures cumulativeReward == old(cumulativeReward) + r
    {
      cumulativeReward := cumulativeReward + r;
    }

    method EndEpisode()
      modifies this`ended
      ensures ended
    {
      ended := true;
    }

    /**
     * `OnEpisodeBegin`: place the agent (`rx`, `rz` are the placement draws),
     * stop it, restart the episode clock, reset this floor's spawner and
     * spawn the burst (`burst` holds the burst's draws).
     */
    method OnEpisodeBegin(rx: real, rz: real, burst: seq<Draw>)
      requires floor.Some? ==> PlacementDraw(rx, rz, floor.value)
      requires |burst| == BurstSize
      requires forall i :: 0 <= i < |burst| ==> ValidDraw(burst[i], goalSpawner.floorBounds)
      modifies this, goalSpawner, goalSpawner.scene
      ensures position == if floor.Some? then Vec3(rx, floor.value.max.y + 1.0, rz) else old(position)
      ensures velocity == Zero && angularVelocity == Zero && episodeTimer == 0.0
      ensures goalSpawner.scene.spheres ==
                Cleared(old(goalSpawner.scene.spheres), goalSpawner.floor)
                + Burst(goalSpawner.floorBounds, goalSpawner.spawnHeight, burst)
      ensures goalSpawner.timer ==
                if goalSpawner.autoSpawningEnabled then goalSpawner.frequency else old(goalSpawner.timer)
      ensures goalSpawner.autoSpawningEnabled == old(goalSpawner.autoSpawningEnabled)
      ensures goalSpawner.floorBounds == old(goalSpawner.floorBounds)
      ensures movement == old(movement) && yRotation == old(yRotation)
      ensures cumulativeReward == old(cumulativeReward) && ended == old(ended) && isWalking == old(isWalking)
    {
      ResetAgentPosition(rx, rz);
      velocity := Zero;
      angularVelocity := Zero;
      episodeTimer := 0.0;
      goalSpawner.ResetForNewEpisode();
      goalSpawner.SpawnSpheresOnStart(burst);
    }

    /** The placement draws fall in the floor's rectangle shrunk by the inset. */
    static predicate PlacementDraw(rx: real, rz: real, b: Bounds)
    {
      Between(rx, b.min.x + PlacementInset, b.max.x - PlacementInset)
        && Between(rz, b.min.z + PlacementInset, b.max.z - PlacementInset)
    }

    method ResetAgentPosition(rx: real, rz: real)
      requires floor.Some? ==> PlacementDraw(rx, rz, floor.value)
      modifies this`position
      ensures position == if floor.Some? then Vec3(rx, floor.value.max.y + 1.0, rz) else old(position)
    {
      if floor.Some? {
        var b := floor.value;
        position := Vec3(rx, b.max.y + 1.0, rz);
      }
    }

    /**
     * Builds the observation vector in the order the sensor receives it:
     * normalised x and z, distances to the top, bottom, right and left edges,
     * planar velocity over `moveSpeed`, heading one-hot.
     */
    method CollectObservations() returns (obs: seq<real>)
      requires floor.Some? && floor.value.HasArea() && moveSpeed != 0.0
      ensures |obs| == 12
      ensures obs[2] + obs[3] == 1.0 && obs[4] + obs[5] == 1.0
      ensures obs[0] * (floor.value.max.x - floor.value.min.x) == position.x - floor.value.min.x
      ensures obs[1] * (floor.value.max.z - floor.value.min.z) == position.z - floor.value.min.z
      ensures obs[0] == obs[5] && obs[1] == obs[3]
      ensures IsWithinFloorBounds(position, floor.value) ==> forall i :: 0 <= i < 6 ==> 0.0 <= obs[i] <= 1.0
      ensures obs[6] * moveSpeed == velocity.x && obs[7] * moveSpeed == velocity.z
      ensures obs[8..] == HeadingOneHot(EulerYaw(yRotation))
    {
      var b := floor.value;
      var width := b.max.x - b.min.x;
      var depth := b.max.z - b.min.z;
      var positionX := (position.x - b.min.x) / width;
      var positionZ := (position.z - b.min.z) / depth;
      var distanceTop := (b.max.z - position.z) / depth;
      var distanceBottom := (position.z - b.min.z) / depth;
      var distanceRight := (b.max.x - position.x) / width;
      var distanceLeft := (position.x - b.min.x) / width;
      NormalisedAxis(position.x, b.min.x, b.max.x);
      NormalisedAxis(position.z, b.min.z, b.max.z);
      var velocityX, velocityZ := velocity.x / moveSpeed, velocity.z / moveSpeed;
      var heading := EulerYaw(yRotation);
      var forward, backward, left, right := 0.0, 0.0, 0.0, 0.0;
      if heading == 0.0 {
        forward := 1.0;
      } else if heading == 90.0 {
        right := 1.0;
      } else if heading == 180.0 {
        backward := 1.0;
      } else if heading == 270.0 {
        left := 1.0;
      }
      obs := [positionX, positionZ, distanceTop, distanceBottom, distanceRight, distanceLeft,
              velocityX, velocityZ, forward, backward, left, right];
    }

    /** One decision step with the harness's action, the ray sensor's output and the fixed tick. */
    method OnActionReceived(action: int, rays: Option<seq<RayOutput>>, fixedDeltaTime: real)
      modifies this
      ensures cumulativeReward == old(cumulativeReward) + StepReward(action, rays, old(position).y)
      ensures movement == ActionMovement(action)
      ensures yRotation == ActionYaw(action, old(yRotation))
      ensures velocity == ComposeVelocity(movement, moveSpeed, old(velocity))
      ensures isWalking == if hasAnimator then IsWalkingSpeed(movement) else old(isWalking)
      ensures episodeTimer == old(episodeTimer) + fixedDeltaTime
      ensures ended == (old(ended) || old(position).y < FallThreshold || episodeTimer >= episodeTimeout)
      ensures position == old(position) && angularVelocity == old(angularVelocity)
    {
      if action == 0 {
        AddReward(IdlePenalty);
      }
      if action > 0 && action < |ActionMap| {
        movement := ActionMap[action];
        UpdateRotation(action);
      } else {
        movement := Zero;
      }
      assert movement == ActionMovement(action);
      ApplyMovement();
      var walking := IsWalkingSpeed(movement);
      if hasAnimator {
        isWalking := walking;
      }
      ghost var idle := cumulativeReward - old(cumulativeReward);
      assert idle == if action == 0 then IdlePenalty else 0.0;
      ProcessRayPerceptionRewards(rays);
      CheckForFall();
      episodeTimer := episodeTimer + fixedDeltaTime;
      if episodeTimer >= episodeTimeout {
        EndEpisode();
      }
    }

    method UpdateRotation(action: int)
      modifies this`yRotation
      ensures yRotation == ActionYaw(action, old(yRotation))
    {
      if action == 1 {
        yRotation := -90.0;
      } else if action == 2 {
        yRotation := 90.0;
      } else if action == 3 {
        yRotation := 0.0;
      } else if action == 4 {
        yRotation := 180.0;
      }
    }

    method ApplyMovement()
      modifies this`velocity
      ensures velocity == ComposeVelocity(movement, moveSpeed, old(velocity))
    {
      var v := Vec3(movement.x * moveSpeed, movement.y * moveSpeed, movement.z * moveSpeed);
      v := v.(y := velocity.y);
      velocity := v;
    }

    method ProcessRayPerceptionRewards(rays: Option<seq<RayOutput>>)
      modifies this`cumulativeReward
      ensures cumulativeReward == old(cumulativeReward) + ProximityReward(rays)
    {
      if rays.None? {
        return;
      }
      var outputs := rays.value;
      for i := 0 to |outputs|
        invariant cumulativeReward == old(cumulativeReward) + RaySum(outputs[..i])
      {
        var ray := outputs[i];
        assert outputs[..i + 1][..i] == outputs[..i];
        if !ray.hasHit || !ray.hitGameObjectPresent {
          continue;
        }
        if ray.hitTaggedObject {
          var distance := 1.0 - ray.hitFraction;
          if ray.hitTagIndex == GoodSphereTag {
            AddReward(RayScale * distance);
          } else if ray.hitTagIndex == BadSphereTag {
            AddReward(-RayScale * distance);
          }
        }
      }
      assert outputs[..|outputs|] == outputs;
    }

    method OnSphereCollected(isGoodSphere: bool)
      modifies this`cumulativeReward
      ensures cumulativeReward == old(cumulativeReward) + CollectionReward(isGoodSphere)
    {
      if isGoodSphere {
        AddReward(GoodSphereReward);
      } else {
        AddReward(BadSphereReward);
      }
    }

    method CheckForFall()
      modifies this`cumulativeReward, this`ended
      ensures cumulativeReward == old(cumulativeReward) + (if position.y < FallThreshold then FallPenalty else 0.0)
      ensures ended == (old(ended) || position.y < FallThreshold)
    {
      if position.y < FallThreshold {
        OnAgentFailed();
      }
    }

    method OnAgentFailed()
      modifies this`cumulativeReward, this`ended
      ensures cumulativeReward == old(cumulativeReward) + FallPenalty && ended
    {
      AddReward(FallPenalty);
      EndEpisode();
    }

    /** Manual control: the first held direction in the order left, right, forward, back; nothing held is action 0. */
    method Heuristic(keys: Keys) returns (action: int)
      ensures 0 <= action < ActionCount
      ensures action == 0 <==> !keys.LeftHeld() && !keys.RightHeld() && !keys.ForwardHeld() && !keys.BackHeld()
      ensures action == 1 <==> keys.LeftHeld()
      ensures action == 2 <==> !keys.LeftHeld() && keys.RightHeld()
      ensures action == 3 <==> !keys.LeftHeld() && !keys.RightHeld() && keys.ForwardHeld()
      ensures action == 4 <==> !keys.LeftHeld() && !keys.RightHeld() && !keys.ForwardHeld() && keys.BackHeld()
    {
      action := 0;
      if keys.a || keys.leftArrow {
        action := 1;
      } else if keys.d || keys.rightArrow {
        action := 2;
      } else if keys.w || keys.upArrow {
        action := 3;
      } else if keys.s || keys.downArrow {
        action := 4;
      }
    }
  }

  /**
   * The two normalised edge distances of a coordinate `p` on the axis
   * [lo, hi]: the near one scaled back gives the offset from `lo`, the two
   * add up to one, and both lie in [0, 1] when `p` is on the axis.
   */
  lemma NormalisedAxis(p: real, lo: real, hi: real)
    requires lo < hi
    ensures (p - lo) / (hi - lo) * (hi - lo) == p - lo
    ensures (hi - p) / (hi - lo) + (p - lo) / (hi - lo) == 1.0
    ensures lo <= p <= hi ==> 0.0 <= (p - lo) / (hi - lo) <= 1.0 && 0.0 <= (hi - p) / (hi - lo) <= 1.0
  {
    var length := hi - lo;
    calc {
      (hi - p) / length + (p - lo) / length;
      ((hi - p) + (p - lo)) / length;
      { assert (hi - p) + (p - lo) == length; }
      length / length;
      1.0;
    }
    if lo <= p <= hi {
      QuotientInUnit(p - lo, length);
      QuotientInUnit(hi - p, length);
    }
  }

  /** A non-negative distance no longer than `length`, divided by it, lies in [0, 1]. */
  lemma QuotientInUnit(a: real, length: real)
    requires length > 0.0 && 0.0 <= a <= length
    ensures 0.0 <= a / length <= 1.0
  {
    var q := a / length;
    assert q * length == a;
    if q > 1.0 {
      assert false;
    }
  }
}
