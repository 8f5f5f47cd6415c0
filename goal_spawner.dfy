/**
 * The sphere spawner of one floor (`GoalSpawner`): a countdown timer that
 * spawns one sphere when it expires, a burst of spheres at episode start, and
 * an episode reset that clears the spheres lying over this floor.
 */
module Spawning {
  import opened Geometry

  /** Number of spheres `SpawnSpheresOnStart` places. */
  const BurstSize: nat := 80

  /** A live sphere: where it is and whether it is a good one (tag `GoodSphere`) or a bad one (tag `BadSphere`). */
  datatype Sphere = Sphere(position: Vec3, isGood: bool)

  /**
   * The three random draws of one `SpawnRandomSphere`: `x` from
   * `Random.Range(min.x, max.x)`, `z` from `Random.Range(min.z, max.z)` and
   * `kind` from the integer `Random.Range(0, 3)`, whose upper end is excluded.
   */
  datatype Draw = Draw(x: real, z: real, kind: int)

  predicate ValidDraw(d: Draw, b: Bounds)
  {
    Between(d.x, b.min.x, b.max.x) && Between(d.z, b.min.z, b.max.z) && 0 <= d.kind < 3
  }

  /** Position test used by the clear: x and z inclusively, y ignored. */
  predicate IsWithinFloorBounds(p: Vec3, b: Bounds): (r: bool)
    ensures r ==> Between(p.x, b.min.x, b.max.x) && Between(p.z, b.min.z, b.max.z)
    ensures b.Valid() && Between(p.x, b.min.x, b.max.x) && Between(p.z, b.min.z, b.max.z) ==> r
  {
    p.x >= b.min.x && p.x <= b.max.x && p.z >= b.min.z && p.z <= b.max.z
  }

  /** The sphere a spawn with draw `d` creates over `b` at height `spawnHeight`. */
  function SpawnedSphere(b: Bounds, spawnHeight: real, d: Draw): (s: Sphere)
    ensures s.position.y == spawnHeight
    ensures s.isGood <==> d.kind > 0
    ensures b.Valid() && ValidDraw(d, b) ==> IsWithinFloorBounds(s.position, b)
  {
    Sphere(Vec3(d.x, spawnHeight, d.z), d.kind > 0)
  }

  /** The spheres a burst spawns, one per draw, in draw order. */
  function Burst(b: Bounds, spawnHeight: real, draws: seq<Draw>): (r: seq<Sphere>)
    ensures |r| == |draws|
    ensures forall i :: 0 <= i < |draws| ==> r[i] == SpawnedSphere(b, spawnHeight, draws[i])
  {
    seq(|draws|, i requires 0 <= i < |draws| => SpawnedSphere(b, spawnHeight, draws[i]))
  }

  /** Every sphere of a burst over a valid floor lies over that floor, at the spawn height. */
  lemma BurstWithinFloor(b: Bounds, spawnHeight: real, draws: seq<Draw>)
    requires b.Valid()
    requires forall i :: 0 <= i < |draws| ==> ValidDraw(draws[i], b)
    ensures forall s :: s in Burst(b, spawnHeight, draws) ==>
              IsWithinFloorBounds(s.position, b) && s.position.y == spawnHeight
  {
    var r := Burst(b, spawnHeight, draws);
    forall s | s in r
      ensures IsWithinFloorBounds(s.position, b) && s.position.y == spawnHeight
    {
      var i :| 0 <= i < |r| && r[i] == s;
      assert ValidDraw(draws[i], b);
    }
  }

  // ---------------------------------------------------------------- clearing

  /** The spheres one tag pass of the clear leaves: those of the other tag, and those of this tag outside `b`. */
  function RemoveTagged(s: seq<Sphere>, b: Bounds, isGood: bool): seq<Sphere>
  {
    if s == [] then []
    else
      var last := s[|s| - 1];
      RemoveTagged(s[..|s| - 1], b, isGood)
        + (if last.isGood == isGood && IsWithinFloorBounds(last.position, b) then [] else [last])
  }

  /** What clearing the floor `b` leaves: every sphere outside `b`, in order. */
  function Cleared(s: seq<Sphere>, b: Bounds): seq<Sphere>
  {
    if s == [] then []
    else
      var last := s[|s| - 1];
      Cleared(s[..|s| - 1], b) + (if IsWithinFloorBounds(last.position, b) then [] else [last])
  }

  /** The good pass followed by the bad pass clears exactly the spheres over `b`. */
  lemma {:induction false} TwoPassesClear(s: seq<Sphere>, b: Bounds)
    ensures RemoveTagged(RemoveTagged(s, b, true), b, false) == Cleared(s, b)
  {
    if s != [] {
      var init, last := s[..|s| - 1], s[|s| - 1];
      TwoPassesClear(init, b);
      var once := RemoveTagged(init, b, true);
      var kept := if last.isGood && IsWithinFloorBounds(last.position, b) then [] else [last];
      RemoveTaggedAppend(once, kept, b, false);
    }
  }

  lemma {:induction false} RemoveTaggedAppend(s: seq<Sphere>, t: seq<Sphere>, b: Bounds, isGood: bool)
    requires |t| <= 1
    ensures RemoveTagged(s + t, b, isGood) == RemoveTagged(s, b, isGood) + RemoveTagged(t, b, isGood)
  {
    if t != [] {
      assert (s + t)[..|s + t| - 1] == s;
      assert t[..0] == [];
    } else {
      assert s + t == s;
    }
  }

  lemma {:induction false} ClearedAppend(s: seq<Sphere>, t: seq<Sphere>, b: Bounds)
    ensures Cleared(s + t, b) == Cleared(s, b) + Cleared(t, b)
    decreases |t|
  {
    if t == [] {
      assert s + t == s;
    } else {
      var init := t[..|t| - 1];
      assert (s + t)[..|s + t| - 1] == s + init;
      ClearedAppend(s, init, b);
    }
  }

  /**
   * The clear removes exactly the spheres over `b`: each sphere outside `b`
   * keeps all its copies, each sphere over `b` has none left.
   */
  lemma {:induction false} ClearedCounts(s: seq<Sphere>, b: Bounds, x: Sphere)
    ensures multiset(Cleared(s, b))[x] ==
              if IsWithinFloorBounds(x.position, b) then 0 else multiset(s)[x]
  {
    if s != [] {
      var init, last := s[..|s| - 1], s[|s| - 1];
      ClearedCounts(init, b, x);
      assert s == init + [last];
      assert multiset(s) == multiset(init) + multiset{last};
    }
  }

  /** Nothing left by the clear lies over the cleared floor, and nothing new appears. */
  lemma ClearedSpheresAreOutside(s: seq<Sphere>, b: Bounds)
    ensures forall x :: x in Cleared(s, b) <==> x in s && !IsWithinFloorBounds(x.position, b)
  {
    forall x
      ensures x in Cleared(s, b) <==> x in s && !IsWithinFloorBounds(x.position, b)
    {
      ClearedCounts(s, b, x);
    }
  }

  /** Clearing an already cleared floor removes nothing more. */
  lemma {:induction false} ClearedIdempotent(s: seq<Sphere>, b: Bounds)
    ensures Cleared(Cleared(s, b), b) == Cleared(s, b)
  {
    if s != [] {
      var init, last := s[..|s| - 1], s[|s| - 1];
      ClearedIdempotent(init, b);
      var tail := if IsWithinFloorBounds(last.position, b) then [] else [last];
      ClearedAppend(Cleared(init, b), tail, b);
      assert Cleared(tail, b) == tail by {
        if tail != [] {
          assert tail[..0] == [];
        }
      }
    }
  }

  /**
   * Clearing one floor spares every sphere over a second floor whose ground
   * rectangle does not overlap it: those spheres survive in the same order.
   */
  lemma {:induction false} ClearSparesOtherFloor(s: seq<Sphere>, b: Bounds, other: Bounds)
    requires b.max.x < other.min.x || other.max.x < b.min.x ||
             b.max.z < other.min.z || other.max.z < b.min.z
    ensures Over(Cleared(s, b), other) == Over(s, other)
  {
    if s != [] {
      var init, last := s[..|s| - 1], s[|s| - 1];
      ClearSparesOtherFloor(init, b, other);
      var tail := if IsWithinFloorBounds(last.position, b) then [] else [last];
      OverAppend(Cleared(init, b), tail, other);
      if tail != [] {
        assert tail[..0] == [];
      }
    }
  }

  /** The spheres lying over floor `b`, in order. */
  function Over(s: seq<Sphere>, b: Bounds): seq<Sphere>
  {
    if s == [] then []
    else
      var last := s[|s| - 1];
      Over(s[..|s| - 1], b) + (if IsWithinFloorBounds(last.position, b) then [last] else [])
  }

  lemma {:induction false} OverAppend(s: seq<Sphere>, t: seq<Sphere>, b: Bounds)
    requires |t| <= 1
    ensures Over(s + t, b) == Over(s, b) + Over(t, b)
  {
    if t != [] {
      assert (s + t)[..|s + t| - 1] == s;
      assert t[..0] == [];
    } else {
      assert s + t == s;
    }
  }

  // ------------------------------------------------------------------- timer

  /** The outcome of one `Update` on the spawn timer: the new timer and whether a sphere was spawned. */
  datatype TimerTick = TimerTick(timer: real, spawned: bool)

  /** One frame of the spawn timer. */
  function Tick(enabled: bool, timer: real, frequency: real, dt: real): (t: TimerTick)
    ensures !enabled || timer <= 0.0 ==> t == TimerTick(timer, false)
    ensures t.spawned ==> t.timer == frequency
  {
    if enabled && timer > 0.0 then
      if timer - dt <= 0.0 then TimerTick(frequency, true) else TimerTick(timer - dt, false)
    else TimerTick(timer, false)
  }

  /** The timer invariant while auto-spawning is on. */
  predicate TimerInvariant(enabled: bool, timer: real, frequency: real)
  {
    enabled ==> 0.0 < timer <= frequency
  }

  /**
   * One frame spawns exactly when the running timer crosses zero, and then
   * restarts it at `frequency`; otherwise it only counts down.
   */
  lemma TickSpawnsOnExpiry(enabled: bool, timer: real, frequency: real, dt: real)
    ensures Tick(enabled, timer, frequency, dt).spawned <==> enabled && timer > 0.0 && timer - dt <= 0.0
    ensures Tick(enabled, timer, frequency, dt).spawned ==> Tick(enabled, timer, frequency, dt).timer == frequency
    ensures enabled && timer > 0.0 && !Tick(enabled, timer, frequency, dt).spawned ==>
              Tick(enabled, timer, frequency, dt).timer == timer - dt
  {
  }

  /** With a non-negative frame time the timer invariant survives every frame. */
  lemma TickKeepsInvariant(enabled: bool, timer: real, frequency: real, dt: real)
    requires TimerInvariant(enabled, timer, frequency) && dt >= 0.0
    ensures TimerInvariant(enabled, Tick(enabled, timer, frequency, dt).timer, frequency)
  {
  }

  /** Many frames: the final timer and how many spheres were spawned. */
  function Run(enabled: bool, timer: real, frequency: real, dts: seq<real>): (TimerTick, nat)
  {
    if dts == [] then (TimerTick(timer, false), 0)
    else
      var (t, n) := Run(enabled, timer, frequency, dts[..|dts| - 1]);
      var step := Tick(enabled, t.timer, frequency, dts[|dts| - 1]);
      (step, n + if step.spawned then 1 else 0)
  }

  /** With auto-spawning off, however much time passes, nothing spawns and the timer stays put. */
  lemma {:induction false} DisabledRunIsInert(timer: real, frequency: real, dts: seq<real>)
    ensures Run(false, timer, frequency, dts).0.timer == timer
    ensures Run(false, timer, frequency, dts).1 == 0
  {
    if dts != [] {
      DisabledRunIsInert(timer, frequency, dts[..|dts| - 1]);
    }
  }

  /** The timer invariant holds after any run of frames with non-negative frame times. */
  lemma {:induction false} RunKeepsInvariant(enabled: bool, timer: real, frequency: real, dts: seq<real>)
    requires TimerInvariant(enabled, timer, frequency)
    requires forall i :: 0 <= i < |dts| ==> dts[i] >= 0.0
    ensures TimerInvariant(enabled, Run(enabled, timer, frequency, dts).0.timer, frequency)
  {
    if dts != [] {
      RunKeepsInvariant(enabled, timer, frequency, dts[..|dts| - 1]);
      var t := Run(enabled, timer, frequency, dts[..|dts| - 1]).0;
      TickKeepsInvariant(enabled, t.timer, frequency, dts[|dts| - 1]);
    }
  }

  // ----------------------------------------------------------- episode reset

  /** The state an episode reset touches: the scene's spheres and the spawn timer. */
  datatype ResetView = ResetView(spheres: seq<Sphere>, timer: real)

  /** `ResetForNewEpisode`: clear the floor, then restart the timer if auto-spawning is on. */
  function EpisodeReset(v: ResetView, enabled: bool, frequency: real, floor: Bounds): ResetView
  {
    ResetView(Cleared(v.spheres, floor), if enabled then frequency else v.timer)
  }

  /** Resetting twice leaves the same spheres and timer as resetting once. */
  lemma EpisodeResetIdempotent(v: ResetView, enabled: bool, frequency: real, floor: Bounds)
    ensures EpisodeReset(EpisodeReset(v, enabled, frequency, floor), enabled, frequency, floor)
            == EpisodeReset(v, enabled, frequency, floor)
  {
    ClearedIdempotent(v.spheres, floor);
  }

  // ------------------------------------------------------------------ objects

  /** The scene's live tagged spheres, shared by every floor's spawner. */
  class Scene {
    var spheres: seq<Sphere>

    constructor (spheres: seq<Sphere>)
      ensures this.spheres == spheres
    {
      this.spheres := spheres;
    }
  }

  class GoalSpawner {
    /** Seconds between automatic spawns; zero or less (the inspector uses -1) turns them off. */
    const frequency: real
    const spawnHeight: real
    /** The bounds of the floor's collider, read afresh by the clear. */
    const floor: Bounds
    const scene: Scene

    /** The floor bounds cached by `Start`; all zero until then. */
    var floorBounds: Bounds
    var timer: real
    var autoSpawningEnabled: bool

    /** The field initialisers: timer 0, auto-spawning on, bounds not yet read. */
    constructor (frequency: real, spawnHeight: real, floor: Bounds, scene: Scene)
      ensures this.frequency == frequency && this.spawnHeight == spawnHeight
      ensures this.floor == floor && this.scene == scene
      ensures floorBounds == EmptyBounds && timer == 0.0 && autoSpawningEnabled
    {
      this.frequency := frequency;
      this.spawnHeight := spawnHeight;
      this.floor := floor;
      this.scene := scene;
      floorBounds := EmptyBounds;
      timer := 0.0;
      autoSpawningEnabled := true;
    }

    ghost predicate Invariant()
      reads this
    {
      TimerInvariant(autoSpawningEnabled, timer, frequency)
    }

    method Start()
      modifies this
      ensures floorBounds == floor
      ensures autoSpawningEnabled <==> frequency > 0.0
      ensures timer == if frequency > 0.0 then frequency else old(timer)
      ensures Invariant()
    {
      floorBounds := floor;
      autoSpawningEnabled := frequency > 0.0;
      if autoSpawningEnabled {
        timer := frequency;
      }
    }

    /** One frame of `dt` seconds; `d` is what the spawn would draw if the timer expires. */
    method Update(dt: real, d: Draw)
      requires ValidDraw(d, floorBounds)
      modifies this, scene
      ensures timer == Tick(old(autoSpawningEnabled), old(timer), frequency, dt).timer
      ensures scene.spheres == old(scene.spheres) +
                (if Tick(old(autoSpawningEnabled), old(timer), frequency, dt).spawned
                 then [SpawnedSphere(floorBounds, spawnHeight, d)] else [])
      ensures autoSpawningEnabled == old(autoSpawningEnabled) && floorBounds == old(floorBounds)
      ensures old(Invariant()) && dt >= 0.0 ==> Invariant()
    {
      if autoSpawningEnabled && timer > 0.0 {
        timer := timer - dt;
        if timer <= 0.0 {
          SpawnRandomSphere(d);
          timer := frequency;
        }
      }
    }

    method SpawnSpheresOnStart(draws: seq<Draw>)
      requires |draws| == BurstSize
      requires forall i :: 0 <= i < |draws| ==> ValidDraw(draws[i], floorBounds)
      modifies scene
      ensures scene.spheres == old(scene.spheres) + Burst(floorBounds, spawnHeight, draws)
    {
      for i := 0 to BurstSize
        invariant scene.spheres == old(scene.spheres) + Burst(floorBounds, spawnHeight, draws[..i])
      {
        SpawnRandomSphere(draws[i]);
        assert draws[..i + 1] == draws[..i] + [draws[i]];
      }
      assert draws[..BurstSize] == draws;
    }

    method SpawnRandomSphere(d: Draw)
      requires ValidDraw(d, floorBounds)
      modifies scene
      ensures scene.spheres == old(scene.spheres) + [SpawnedSphere(floorBounds, spawnHeight, d)]
    {
      var spawned := Sphere(Vec3(d.x, spawnHeight, d.z), d.kind > 0);
      scene.spheres := scene.spheres + [spawned];
    }

    /** Destroys, among the spheres present at the start, those of one tag lying over `b`. */
    method DestroyTaggedWithin(isGood: bool, b: Bounds)
      modifies scene
      ensures scene.spheres == RemoveTagged(old(scene.spheres), b, isGood)
    {
      var all := scene.spheres;
      var kept := [];
      for i := 0 to |all|
        invariant kept == RemoveTagged(all[..i], b, isGood)
      {
        if !(all[i].isGood == isGood && IsWithinFloorBounds(all[i].position, b)) {
          kept := kept + [all[i]];
        }
        assert all[..i + 1][..i] == all[..i];
      }
      assert all[..|all|] == all;
      scene.spheres := kept;
    }

    method ClearAllSpheres()
      modifies scene
      ensures scene.spheres == Cleared(old(scene.spheres), floor)
    {
      var b := floor;
      DestroyTaggedWithin(true, b);
      DestroyTaggedWithin(false, b);
      TwoPassesClear(old(scene.spheres), b);
    }

    method ResetSpawner()
      modifies this
      ensures timer == if autoSpawningEnabled then frequency else old(timer)
      ensures autoSpawningEnabled == old(autoSpawningEnabled) && floorBounds == old(floorBounds)
      ensures autoSpawningEnabled && frequency > 0.0 ==> Invariant()
    {
      if autoSpawningEnabled {
        timer := frequency;
      }
    }

    method ResetForNewEpisode()
      modifies this, scene
      ensures ResetView(scene.spheres, timer) ==
                EpisodeReset(ResetView(old(scene.spheres), old(timer)), autoSpawningEnabled, frequency, floor)
      ensures autoSpawningEnabled == old(autoSpawningEnabled) && floorBounds == old(floorBounds)
      ensures old(Invariant()) ==> Invariant()
    {
      ClearAllSpheres();
      ResetSpawner();
    }
  }
}
