/**
 * The value-level specification of one frame tick of the particle system:
 * the spawn policy, the advance pass, the cull pass, the draw pass and the
 * tick that composes them, with the properties a tick guarantees.
 */
module Simulation {
  import opened Particles
  import opened Fade

  /** Seconds the spawn accumulator must reach before a particle is added (`addDelay`). */
  const AddDelay: real := 0.5
  /** Lifespan, in seconds, of every spawned particle. */
  const SpawnLifespan: real := 5.0
  /** Spawned particles sit this far up and left of the start point (half the 50x50 sprite). */
  const SpawnOffset: real := 25.0
  /** Straight upward drift of every spawned particle. */
  const SpawnVelocity: Vec2 := Vec2(0.0, -10.0)

  /** The simulated state of the system: particle list, spawn accumulator, previous timestamp. */
  datatype SimState = SimState(particles: seq<ParticleView>, addCounter: real, lastFrameTime: real)

  /** Elapsed seconds between two millisecond timestamps. */
  function FrameDelta(lastFrameTime: real, timestamp: real): (dt: real)
    ensures lastFrameTime <= timestamp ==> 0.0 <= dt
    ensures dt * 1000.0 == timestamp - lastFrameTime
  {
    (timestamp - lastFrameTime) / 1000.0
  }

  /** The particle `addParticle` creates, given the random draw r from [0, 1). */
  function Spawn(startPos: Vec2, r: real): (p: ParticleView)
    requires 0.0 <= r < 1.0
    ensures p.age == 0.0 && p.lifespan == 5.0 && Alive(p)
    ensures p.position == Vec2(startPos.x - 25.0, startPos.y - 25.0)
    ensures p.velocity == Vec2(0.0, -10.0)
    ensures 0.0 <= p.rotation < 360.0 && p.rotation == p.rotation.Floor as real
  {
    ParticleView(0.0, SpawnLifespan,
                 Vec2(startPos.x - SpawnOffset, startPos.y - SpawnOffset),
                 SpawnVelocity, (r * 360.0).Floor as real)
  }

  /** Every particle advanced by the same dt, in list order. */
  function AdvanceAll(vs: seq<ParticleView>, dt: real): (ws: seq<ParticleView>)
    ensures |ws| == |vs|
    ensures forall k :: 0 <= k < |vs| ==> ws[k] == Advance(vs[k], dt)
  {
    if vs == [] then [] else [Advance(vs[0], dt)] + AdvanceAll(vs[1..], dt)
  }

  /** The cull pass: the particles with age < lifespan, in their original order. */
  function LiveOnly(vs: seq<ParticleView>): (ws: seq<ParticleView>)
    ensures |ws| <= |vs|
    ensures forall v :: v in ws <==> v in vs && Alive(v)
  {
    if vs == [] then []
    else (if Alive(vs[0]) then [vs[0]] else []) + LiveOnly(vs[1..])
  }

  /** Whether the tick at `timestamp` brings the accumulator to the spawn delay. */
  predicate SpawnDue(s: SimState, timestamp: real): (due: bool)
    ensures 0.0 <= s.addCounter && timestamp - s.lastFrameTime >= 500.0 ==> due
    ensures AddDelay <= s.addCounter && s.lastFrameTime <= timestamp ==> due
    ensures s.addCounter < AddDelay && timestamp <= s.lastFrameTime ==> !due
  {
    s.addCounter + FrameDelta(s.lastFrameTime, timestamp) >= AddDelay
  }

  /** The list after the spawn step of a tick, before anything is advanced. */
  function AfterSpawn(s: SimState, startPos: Vec2, timestamp: real, r: real): (ps: seq<ParticleView>)
    requires 0.0 <= r < 1.0
    ensures |ps| == if SpawnDue(s, timestamp) then |s.particles| + 1 else |s.particles|
    ensures ps[..|s.particles|] == s.particles
    ensures SpawnDue(s, timestamp) ==> ps[|s.particles|] == Spawn(startPos, r)
  {
    if SpawnDue(s, timestamp) then s.particles + [Spawn(startPos, r)] else s.particles
  }

  /** One frame tick: delta time, accumulate, spawn at most once, advance all, cull. */
  function Step(s: SimState, startPos: Vec2, timestamp: real, r: real): (t: SimState)
    requires 0.0 <= r < 1.0
    ensures t.lastFrameTime == timestamp
    ensures forall v :: v in t.particles ==> Alive(v)
    ensures |t.particles| <= |s.particles| + 1
  {
    var dt := FrameDelta(s.lastFrameTime, timestamp);
    var ps := AfterSpawn(s, startPos, timestamp, r);
    SimState(LiveOnly(AdvanceAll(ps, dt)),
             if SpawnDue(s, timestamp) then 0.0 else s.addCounter + dt,
             timestamp)
  }

  /** The draw pass: the opacity of each particle drawn, or nothing without the sprite. */
  function DrawPass(vs: seq<ParticleView>, imageLoaded: bool): (alphas: seq<real>)
    ensures !imageLoaded ==> alphas == []
    ensures imageLoaded ==> |alphas| == |vs|
    ensures imageLoaded ==> forall k :: 0 <= k < |vs| ==> alphas[k] == Alpha(vs[k].age, vs[k].lifespan)
  {
    if !imageLoaded || vs == [] then []
    else [Alpha(vs[0].age, vs[0].lifespan)] + DrawPass(vs[1..], imageLoaded)
  }

  // ----- the cull pass -----

  /** Culling distributes over concatenation, so survivors keep their relative order. */
  lemma {:induction false} LiveOnlyAppend(a: seq<ParticleView>, b: seq<ParticleView>)
    ensures LiveOnly(a + b) == LiveOnly(a) + LiveOnly(b)
  {
    if a == [] {
      assert a + b == b;
    } else {
      assert (a + b)[1..] == a[1..] + b;
      LiveOnlyAppend(a[1..], b);
    }
  }

  /** Culling leaves a list unchanged exactly when every particle in it is alive. */
  lemma {:induction false} LiveOnlyKeepsAllIffAlive(vs: seq<ParticleView>)
    ensures LiveOnly(vs) == vs <==> forall v :: v in vs ==> Alive(v)
  {
    if vs != [] && forall v :: v in vs ==> Alive(v) {
      LiveOnlyKeepsAllIffAlive(vs[1..]);
      assert vs == [vs[0]] + vs[1..];
    }
  }

  /** Culling twice is culling once. */
  lemma LiveOnlyIdempotent(vs: seq<ParticleView>)
    ensures LiveOnly(LiveOnly(vs)) == LiveOnly(vs)
  {
    LiveOnlyKeepsAllIffAlive(LiveOnly(vs));
  }

  /** A particle whose age has reached its lifespan exactly is removed. */
  lemma CullAtLifespan(v: ParticleView)
    requires v.age == v.lifespan
    ensures LiveOnly([v]) == []
  {
  }

  /** Advancing distributes over appending one particle. */
  lemma AdvanceAllAppend(vs: seq<ParticleView>, v: ParticleView, dt: real)
    ensures AdvanceAll(vs + [v], dt) == AdvanceAll(vs, dt) + [Advance(v, dt)]
  {
  }

  // ----- the tick -----

  /**
   * The accumulator rule: below the delay the accumulator grows by dt and no
   * particle is added; at or above it the accumulator becomes exactly 0.
   */
  lemma StepAccumulator(s: SimState, startPos: Vec2, timestamp: real, r: real)
    requires 0.0 <= r < 1.0
    ensures var dt := FrameDelta(s.lastFrameTime, timestamp);
            var t := Step(s, startPos, timestamp, r);
            && (s.addCounter + dt < 0.5 ==>
                  t.addCounter == s.addCounter + dt && t.particles == LiveOnly(AdvanceAll(s.particles, dt)))
            && (s.addCounter + dt >= 0.5 ==> t.addCounter == 0.0)
  {
  }

  /**
   * The list after a tick is the culled, advanced old list, followed, when a
   * spawn was due, by the new particle advanced by the same dt if it survived.
   */
  lemma {:induction false} StepSplit(s: SimState, startPos: Vec2, timestamp: real, r: real)
    requires 0.0 <= r < 1.0
    ensures var dt := FrameDelta(s.lastFrameTime, timestamp);
            Step(s, startPos, timestamp, r).particles ==
              LiveOnly(AdvanceAll(s.particles, dt)) +
              (if SpawnDue(s, timestamp) then LiveOnly([Advance(Spawn(startPos, r), dt)]) else [])
  {
    var dt := FrameDelta(s.lastFrameTime, timestamp);
    if SpawnDue(s, timestamp) {
      AdvanceAllAppend(s.particles, Spawn(startPos, r), dt);
      LiveOnlyAppend(AdvanceAll(s.particles, dt), [Advance(Spawn(startPos, r), dt)]);
    } else {
      assert LiveOnly(AdvanceAll(s.particles, dt)) + [] == LiveOnly(AdvanceAll(s.particles, dt));
    }
  }

  /**
   * A particle spawned in a tick is advanced by that tick's dt: it leaves the
   * tick last in the list with age dt, or is culled at once when dt >= 5.
   */
  lemma SpawnedParticleInStep(s: SimState, startPos: Vec2, timestamp: real, r: real)
    requires 0.0 <= r < 1.0
    requires SpawnDue(s, timestamp)
    ensures var dt := FrameDelta(s.lastFrameTime, timestamp);
            var t := Step(s, startPos, timestamp, r);
            var kept := LiveOnly(AdvanceAll(s.particles, dt));
            && (dt < 5.0 ==> t.particles == kept + [Advance(Spawn(startPos, r), dt)]
                             && t.particles[|t.particles| - 1].age == dt
                             && t.particles[|t.particles| - 1].position ==
                                  Vec2(startPos.x - 25.0, startPos.y - 25.0 - 10.0 * dt))
            && (dt >= 5.0 ==> t.particles == kept)
  {
    var dt := FrameDelta(s.lastFrameTime, timestamp);
    var w := Advance(Spawn(startPos, r), dt);
    StepSplit(s, startPos, timestamp, r);
    assert [w][1..] == [];
    if dt < 5.0 {
      assert LiveOnly([w]) == [w];
    } else {
      assert LiveOnly([w]) == [];
      assert LiveOnly(AdvanceAll(s.particles, dt)) + [] == LiveOnly(AdvanceAll(s.particles, dt));
    }
  }

  /** The fields every spawned particle keeps for life, and a non-negative age. */
  predicate SpawnShaped(v: ParticleView)
  {
    && 0.0 <= v.age && v.lifespan == SpawnLifespan && v.velocity == SpawnVelocity
    && 0.0 <= v.rotation < 360.0 && v.rotation == v.rotation.Floor as real
  }

  /**
   * The invariant every reachable state keeps: accumulator in [0, 0.5), every
   * particle alive with non-negative age, the spawn lifespan, velocity and an
   * integer rotation in [0, 360). Ticks with non-decreasing timestamps keep it.
   */
  predicate WellFormed(s: SimState)
  {
    && 0.0 <= s.addCounter < AddDelay
    && forall v :: v in s.particles ==> SpawnShaped(v) && Alive(v)
  }

  /** The state right after the sprite loads at time `now` is well formed. */
  lemma InitialWellFormed(now: real)
    ensures WellFormed(SimState([], 0.0, now))
  {
  }

  /** A non-negative advance keeps every particle spawn-shaped. */
  lemma AdvanceAllShaped(vs: seq<ParticleView>, dt: real)
    requires 0.0 <= dt
    requires forall v :: v in vs ==> SpawnShaped(v)
    ensures forall w :: w in AdvanceAll(vs, dt) ==> SpawnShaped(w)
  {
    var ws := AdvanceAll(vs, dt);
    forall w | w in ws ensures SpawnShaped(w) {
      var k :| 0 <= k < |ws| && ws[k] == w;
      assert vs[k] in vs;
    }
  }

  lemma StepPreservesWellFormed(s: SimState, startPos: Vec2, timestamp: real, r: real)
    requires 0.0 <= r < 1.0
    requires WellFormed(s) && s.lastFrameTime <= timestamp
    ensures WellFormed(Step(s, startPos, timestamp, r))
  {
    var dt := FrameDelta(s.lastFrameTime, timestamp);
    var ps := AfterSpawn(s, startPos, timestamp, r);
    assert forall v :: v in ps ==> v in s.particles || v == Spawn(startPos, r);
    AdvanceAllShaped(ps, dt);
  }

  /** In a well-formed state every opacity drawn lies in [0, 1]. */
  lemma DrawnAlphasInUnitInterval(s: SimState, imageLoaded: bool)
    requires WellFormed(s)
    ensures forall a :: a in DrawPass(s.particles, imageLoaded) ==> 0.0 <= a <= 1.0
  {
    var alphas := DrawPass(s.particles, imageLoaded);
    forall a | a in alphas ensures 0.0 <= a <= 1.0 {
      var k :| 0 <= k < |alphas| && alphas[k] == a;
      assert s.particles[k] in s.particles;
    }
  }

  // ----- worked scenarios -----

  /**
   * Two ticks of 0.3 s each from an empty state spawn exactly one particle; the
   * accumulator reads 0.3 after the first and exactly 0 (not 0.1) after the second.
   */
  lemma TwoShortTicksSpawnOnce(startPos: Vec2, r: real)
    requires 0.0 <= r < 1.0
    ensures var t1 := Step(SimState([], 0.0, 0.0), startPos, 300.0, r);
            var t2 := Step(t1, startPos, 600.0, r);
            && t1.particles == [] && t1.addCounter == 0.3
            && |t2.particles| == 1 && t2.addCounter == 0.0 && t2.particles[0].age == 0.3
  {
  }

  /**
   * Start point (100, 100), sprite loaded at t = 0: the tick at 0 ms spawns
   * nothing; the tick at 500 ms spawns one particle at (75, 75) that it moves to
   * (75, 70); a single tick at 5500 ms culls it, and culls the particle that tick
   * spawns as well, since dt = 5.
   */
  lemma EndToEndScenario(r1: real, r2: real, r3: real)
    requires 0.0 <= r1 < 1.0 && 0.0 <= r2 < 1.0 && 0.0 <= r3 < 1.0
    ensures var start := Vec2(100.0, 100.0);
            var t0 := Step(SimState([], 0.0, 0.0), start, 0.0, r1);
            var t1 := Step(t0, start, 500.0, r2);
            var t2 := Step(t1, start, 5500.0, r3);
            && t0.particles == [] && t0.addCounter == 0.0
            && |t1.particles| == 1 && t1.addCounter == 0.0
            && t1.particles[0].age == 0.5 && t1.particles[0].position == Vec2(75.0, 70.0)
            && t1.particles[0].velocity == Vec2(0.0, -10.0)
            && t2.particles == [] && t2.addCounter == 0.0
  {
    var start := Vec2(100.0, 100.0);
    var t0 := Step(SimState([], 0.0, 0.0), start, 0.0, r1);
    StepAccumulator(SimState([], 0.0, 0.0), start, 0.0, r1);
    SpawnedParticleInStep(t0, start, 500.0, r2);
    var t1 := Step(t0, start, 500.0, r2);
    SpawnedParticleInStep(t1, start, 5500.0, r3);
    var old1 := AdvanceAll(t1.particles, 5.0);
    assert old1[0].age == 5.5;
    assert old1 == [old1[0]];
    assert old1[1..] == [];
    assert LiveOnly(old1) == [];
  }
}
