# Sphere-collection training scene, modelled in Dafny

This project models the game logic of a small Unity reinforcement-learning scene.
An agent walks on a rectangular floor. It collects good and bad spheres that a
spawner places at random, and earns shaped rewards for doing so. Engine calls
become plain inputs: random draws, collider bounds, ray-sensor outputs, key and
axis states, the frame time and the rigidbody's position and velocity. Floats
are exact `real`s.

Modules, one per script, plus two shared helper modules:

- `Wrappers` and `Geometry` (geometry.dfy): `Option`, `Vec3`, `Bounds`, the
  inclusive float draw `Between`, the heading read-back `EulerYaw`, and the
  velocity composition `ComposeVelocity`. The agent and the manual controller
  share that composition.
- `Spawning` (goal_spawner.dfy): the `GoalSpawner` class. It holds the spawn
  timer, the auto-spawn flag and the cached floor bounds. It works on a shared
  `Scene` object whose `spheres` sequence holds every tagged sphere in the scene.
  Pure specification functions sit beside it: `Tick`/`Run` for the timer,
  `Cleared`/`RemoveTagged` for the clear, `EpisodeReset` for the episode reset.
- `Agent` (robot_agent.dfy): the `RobotAgent` class. It holds the cumulative
  reward, episode timer, yaw, movement, velocity, position and an `ended` flag.
  It is specified through `ActionMovement`, `ActionYaw`, `RayReward`/`RaySum`,
  `StepReward` and `HeadingOneHot`.
- `Collision` (sphere_collision.dfy): the `SphereCollision` trigger and the
  colliders it meets.
- `Scoring` (score_manager.dfy): the `ScoreManager` counters (wrapping int32)
  and the 8-byte side-channel payload.
- `Control` (robot_controller.dfy): the manual `RobotController`.

Assumptions the model makes explicit:

- A good sphere carries the tag `GoodSphere` and a bad one the tag `BadSphere`.
  So the tag search in the clear agrees with each sphere's `isGood`.
- The heading that `transform.eulerAngles.y` reads back is the last yaw that
  was set, brought into [0, 360) (`Geometry.EulerYaw`). So a yaw of -90 reads
  as 270.
- `OutgoingMessage.WriteInt32` writes four bytes, least significant first.
- `AddReward` adds to `cumulativeReward`. `EndEpisode` sets `ended`.

## Model

| member | source | states |
|---|---|---|
| `Geometry.ComposeVelocity` | Assets/RobotAgent.cs:175-180 | the new velocity keeps the rigidbody's old vertical component |
| `Geometry.ComposedPlanarSpeed` | Assets/RobotController.cs:56-58 | the composed velocity's planar speed is `speed` times the movement's planar length |
| `Geometry.AxisMovementHasFullSpeed` | Assets/RobotAgent.cs:177-179 | moving along a ground axis gives planar speed exactly `moveSpeed` and keeps the fall speed |
| `Geometry.EulerYaw` | Assets/RobotController.cs:32 | the heading read back lies in [0, 360), equals the yaw on [0, 360) and is the yaw plus or minus 360 one turn out |
| `Geometry.EulerYawIdempotent` | Assets/RobotController.cs:32-50 | reading a heading back and writing it again does not turn the robot |
| `Spawning.IsWithinFloorBounds` | Assets/GoalSpawner.cs:86-91 | the clear's position test is inclusive on x and z, ignores y, and over valid bounds accepts exactly the x/z range a spawn draw covers |
| `Spawning.SpawnedSphere` | Assets/GoalSpawner.cs:61-84 | a spawned sphere sits at the spawn height, is good iff the 0..2 draw is positive, and lies within the floor's x/z bounds for in-range draws |
| `Spawning.Burst` | Assets/GoalSpawner.cs:55-58 | a burst has one sphere per draw, each the sphere that draw spawns, in order |
| `Spawning.BurstWithinFloor` | Assets/GoalSpawner.cs:53-84 | every sphere of a burst lies over the floor at the spawn height |
| `Spawning.TwoPassesClear` | Assets/GoalSpawner.cs:94-122 | the good-tag pass followed by the bad-tag pass removes exactly the spheres over the floor |
| `Spawning.ClearedCounts` | Assets/GoalSpawner.cs:86-121 | after the clear, a sphere outside the floor keeps all its copies and a sphere over it has none left |
| `Spawning.ClearedSpheresAreOutside` | Assets/GoalSpawner.cs:86-91 | a sphere survives the clear iff it was present and its x/z lie outside the bounds, whatever its y |
| `Spawning.ClearedIdempotent` | Assets/GoalSpawner.cs:94-122 | clearing an already cleared floor removes nothing more |
| `Spawning.ClearSparesOtherFloor` | Assets/GoalSpawner.cs:104-121 | the spheres over a second, non-overlapping floor survive unchanged and in order |
| `Spawning.Tick` | Assets/GoalSpawner.cs:39-50 | with auto-spawning off or a stopped timer a frame does nothing; a frame that spawns restarts the timer at `frequency` |
| `Spawning.TickSpawnsOnExpiry` | Assets/GoalSpawner.cs:39-50 | a frame spawns iff auto-spawning is on, the timer is running and it reaches 0 or below; a spawn restarts it at `frequency`, otherwise it counts down by `dt` |
| `Spawning.TickKeepsInvariant` | Assets/GoalSpawner.cs:39-50 | with `dt >= 0`, one frame keeps `0 < timer <= frequency` while auto-spawning is on |
| `Spawning.DisabledRunIsInert` | Assets/GoalSpawner.cs:36-51 | with auto-spawning off, any number of frames spawns nothing and leaves the timer unchanged |
| `Spawning.RunKeepsInvariant` | Assets/GoalSpawner.cs:36-51 | any run of frames with non-negative frame times keeps the timer invariant |
| `Spawning.EpisodeResetIdempotent` | Assets/GoalSpawner.cs:124-138 | resetting for a new episode twice leaves the same spheres and timer as once |
| `Spawning.GoalSpawner.constructor` | Assets/GoalSpawner.cs:13-18 | before `Start` the timer is 0, auto-spawning is on and the cached bounds are all zero |
| `Spawning.GoalSpawner.Start` | Assets/GoalSpawner.cs:20-34 | caches the floor bounds; auto-spawning is on iff `frequency > 0`; only then is the timer set to `frequency`; the timer invariant holds afterwards |
| `Spawning.GoalSpawner.Update` | Assets/GoalSpawner.cs:36-51 | the timer follows `Tick`; exactly one sphere is appended when `Tick` spawns and none otherwise; the timer invariant is kept for `dt >= 0` |
| `Spawning.GoalSpawner.SpawnSpheresOnStart` | Assets/GoalSpawner.cs:53-59 | appends exactly the 80 spheres of the burst |
| `Spawning.GoalSpawner.SpawnRandomSphere` | Assets/GoalSpawner.cs:61-84 | appends exactly one sphere, the one the draw determines, over the cached bounds |
| `Spawning.GoalSpawner.DestroyTaggedWithin` | Assets/GoalSpawner.cs:105-121 | one tag pass destroys exactly the spheres of that tag over the floor |
| `Spawning.GoalSpawner.ClearAllSpheres` | Assets/GoalSpawner.cs:94-122 | the scene afterwards holds exactly the spheres outside the floor collider's x/z bounds, in order |
| `Spawning.GoalSpawner.ResetSpawner` | Assets/GoalSpawner.cs:124-131 | the timer becomes `frequency` only when auto-spawning is on and is otherwise unchanged |
| `Spawning.GoalSpawner.ResetForNewEpisode` | Assets/GoalSpawner.cs:134-138 | the spheres and timer become `EpisodeReset` of the old ones: clear, then timer reset |
| `Agent.ActionMovement` | Assets/RobotAgent.cs:110-121 | an action moves along a ground axis iff it is 1..4, and otherwise the movement is zero |
| `Agent.ActionYaw` | Assets/RobotAgent.cs:163-173 | a moving action 1..4 sets a yaw whose read-back heading is one of the four cardinal ones; any other action keeps the yaw |
| `Agent.ActionTable` | Assets/RobotAgent.cs:101-121 | action 0 gives zero movement and exactly -0.01; actions 1..4 give left/right/forward/back with yaw -90/90/0/180; any other index gives zero movement, no penalty and the same yaw |
| `Agent.FacesDirectionOfMovement` | Assets/RobotAgent.cs:163-173 | after a moving action, the heading is cardinal and faces the direction of movement |
| `Agent.HeadingOneHot` | Assets/RobotAgent.cs:83-98 | the four heading flags are 0 or 1, at most one is set, one is set iff the heading is exactly 0, 90, 180 or 270, and each flag matches its angle |
| `Agent.RayReward` | Assets/RobotAgent.cs:208-234 | a tagged hit on index 0 gives +0.005·(1−fraction), on index 1 gives −0.005·(1−fraction), and misses, untagged hits and other indices give 0 |
| `Agent.RaySumBounded` | Assets/RobotAgent.cs:197-236 | with fractions in [0, 1], each ray moves the proximity reward by at most 0.005 |
| `Agent.PositiveProximityNeedsGoodHit` | Assets/RobotAgent.cs:216-233 | a positive proximity reward needs at least one ray that hit a present, tagged object on the good-sphere index at a fraction below 1 |
| `Agent.StepReward` | Assets/RobotAgent.cs:101-145 | a step never earns more than its proximity reward, and earns strictly less exactly when the action is the idle action 0 or the agent is below the fall threshold |
| `Agent.StepRewardCases` | Assets/RobotAgent.cs:101-145 | with nothing in sight and no fall, a step costs exactly 0.01 when idle and nothing otherwise; a fall adds exactly −10 |
| `Agent.RobotAgent.constructor` | Assets/RobotAgent.cs:37-43 | the yaw starts as the transform's heading; reward, timer and movement start at zero |
| `Agent.RobotAgent.OnEpisodeBegin` | Assets/RobotAgent.cs:45-59 | places the agent, zeroes both velocities and the episode timer, then the scene becomes the cleared old scene followed by the 80-sphere burst, and the spawn timer is reset |
| `Agent.RobotAgent.ResetAgentPosition` | Assets/RobotAgent.cs:182-195 | with a floor, the agent goes to the drawn x/z, one unit above the floor top; without one, it stays put |
| `Agent.RobotAgent.CollectObservations` | Assets/RobotAgent.cs:61-99 | 12 values: x and z are the offsets from the floor's min corner divided by its width and depth; left and bottom distances equal them and right and top are their complements to one; all six are in [0, 1] when the agent is over the floor; velocity times `moveSpeed` gives back the planar velocity; the heading flags are `HeadingOneHot` of the heading |
| `Agent.RobotAgent.OnActionReceived` | Assets/RobotAgent.cs:101-145 | the reward grows by exactly `StepReward`; movement, yaw and velocity follow the action; the timer grows by the fixed tick; the episode ends iff it had ended, the agent is below 0, or the timer reached the timeout |
| `Agent.RobotAgent.UpdateRotation` | Assets/RobotAgent.cs:163-173 | the yaw becomes the action's yaw; other actions keep it |
| `Agent.RobotAgent.ApplyMovement` | Assets/RobotAgent.cs:175-180 | the velocity becomes movement·`moveSpeed` with the old vertical component |
| `Agent.RobotAgent.ProcessRayPerceptionRewards` | Assets/RobotAgent.cs:197-236 | the reward grows by the sum of the rays' rewards, or by nothing when the sensor or its output is missing |
| `Agent.RobotAgent.OnSphereCollected` | Assets/RobotAgent.cs:239-249 | the reward grows by exactly +3 for a good sphere and −3 for a bad one |
| `Agent.RobotAgent.CheckForFall` | Assets/RobotAgent.cs:251-259 | below y = 0 the reward drops by exactly 10 and the episode ends; otherwise nothing changes |
| `Agent.RobotAgent.OnAgentFailed` | Assets/RobotAgent.cs:262-266 | the reward drops by exactly 10 and the episode ends |
| `Agent.RobotAgent.Heuristic` | Assets/RobotAgent.cs:147-161 | the action is 0 iff no direction key is held, otherwise the first held of left (1), right (2), forward (3), back (4) |
| `Collision.SphereCollision.constructor` | Assets/SphereCollision.cs:5-7 | a new component is a good sphere and not destroyed |
| `Collision.SphereCollision.Start` | Assets/SphereCollision.cs:9-16 | the sphere's collider, when present, becomes a trigger |
| `Collision.SphereCollision.OnTriggerEnter` | Assets/SphereCollision.cs:18-42 | an overlap not tagged `Player` changes nothing; a `Player` overlap always destroys the sphere, and when the player has an agent its reward changes once by the sphere's collection reward while its position, velocities, movement, yaw, walking flag, timer and `ended` stay as they were; the score counters are not touched |
| `Scoring.Increment` | Assets/ScoreManager.cs:9-17 | `++` adds exactly one below the int32 maximum and wraps from the maximum to the minimum |
| `Scoring.IncrementIsModular` | Assets/ScoreManager.cs:11 | the increment adds exactly one modulo 2^32 |
| `Scoring.CountedExactly` | Assets/ScoreManager.cs:6-17 | starting from 0, after k increments a counter holds k for k up to 2^31−1, and the next increment wraps it to the minimum |
| `Scoring.LittleEndianRoundTrip` | Assets/ScoreManager.cs:23-24 | reading back the n little-endian bytes of a number below 256^n gives the number |
| `Scoring.EncodeInt32` | Assets/ScoreManager.cs:23-24 | an int32 is written as four bytes that decode back to it |
| `Scoring.SpherePayload` | Assets/ScoreManager.cs:19-27 | the payload is 8 bytes: the first four decode to the good score and the last four to the bad score |
| `Scoring.PayloadExample` | Assets/ScoreManager.cs:21-25 | good = 3 and bad = 5 give the bytes 3,0,0,0,5,0,0,0 |
| `Scoring.ScoreManager.constructor` | Assets/ScoreManager.cs:6-7 | both counters start at 0 and nothing is queued |
| `Scoring.ScoreManager.AddGoodScore` | Assets/ScoreManager.cs:9-12 | only `goodScore` changes, and it is incremented |
| `Scoring.ScoreManager.AddBadScore` | Assets/ScoreManager.cs:14-17 | only `badScore` changes, and it is incremented |
| `Scoring.ScoreManager.SendSphereData` | Assets/ScoreManager.cs:19-27 | exactly one message, the payload of the current counters, is queued, and the counters are unchanged |
| `Scoring.ScoreManager.OnMessageReceived` | Assets/ScoreManager.cs:28-31 | an inbound message changes no state |
| `Control.InputYaw` | Assets/RobotController.cs:32-50 | a nonzero horizontal input decides the yaw (90 or −90), otherwise a nonzero vertical one (0 or 180), otherwise the yaw stays |
| `Control.AxisAction` | Assets/RobotController.cs:34-49 | the input maps to an action in 0..4 that is 0 iff there is no input |
| `Control.InputYawMatchesAgent` | Assets/RobotController.cs:34-49 | the controller picks the same yaw as the agent's action for the same direction |
| `Control.FacesSingleAxisInput` | Assets/RobotController.cs:26-50 | with input along one axis, the robot faces the direction it moves in |
| `Control.WalkingIffInput` | Assets/RobotController.cs:26-29 | the walking flag (magnitude above 0.1) is set iff some input is held |
| `Control.RobotController.Update` | Assets/RobotController.cs:19-51 | stores the normalised movement; walking iff magnitude > 0.1, iff some input is held; the yaw follows `InputYaw` of the current heading; with no input the heading is unchanged |
| `Control.RobotController.FixedUpdate` | Assets/RobotController.cs:53-59 | the velocity becomes movement·`moveSpeed` with the current vertical component |

## Left out

- Assets/RobotSpawner.cs is not part of this model. It only writes a random position into a prefab's transform, and its random rotation is never used.
- Random draws are inputs. Each draw's range is a precondition. The float `Random.Range` is inclusive at both ends, and the integer `Random.Range(0, 3)` gives 0, 1 or 2. Distributions, including the 2:1 good-to-bad ratio, are not modelled.
- Engine object management is not modelled: `Instantiate`, `Destroy`, `FindGameObjectsWithTag`, `GetComponent` and `AddComponent`. The scene is the `Scene.spheres` sequence. `Destroy` on a collected sphere is the `destroyed` flag. The link between that flag and the sphere's entry in `Scene.spheres` is not modelled.
- Physics, ray casting, animation and input polling are not modelled. Position, velocity, ray outputs, key states and axis values are inputs or fields that the engine writes between calls. The animator's `IsWalking` parameter is a field.
- Float rounding, `.normalized` and `magnitude` are not modelled. The action axes are already unit vectors, and the controller takes the normalised input as given.
- `Control.RobotController.Update`: for a tiny nonzero input, Unity's `.normalized` returns zero (magnitude below 1e-5). The precondition `IsDirectionOf` does not admit that case.
- `Agent.RobotAgent.CollectObservations`: requires an assigned floor with a positive width and depth, and a nonzero `moveSpeed`. Without a floor the source throws a null-reference exception. A zero divisor gives infinities or NaN in floats, which `real` cannot represent.
- `Spawning.GoalSpawner.Update` takes the spawn's draws as a parameter. It requires them in range even in frames that do not spawn.
- ML-Agents harness behaviour is left out. That includes what `EndEpisode` does beyond setting `ended`: resetting the cumulative reward, and calling `OnEpisodeBegin` again. Side-channel framing and the channel id are also left out.
- The rigidbody's angular velocity is modelled only as the value that `OnEpisodeBegin` zeroes.
