/**
 * The particle system object (`ParticlesState`): its mutable state, the frame
 * tick and the operations the tick is built from. Each method is proved
 * against the value-level specification in module Simulation.
 */
module System {
  import opened Particles
  import opened Fade
  import opened Simulation

  datatype Option<T> = None | Some(value: T)

  /** No particle object occurs twice in the list. */
  predicate Distinct(ps: seq<Particle>)
  {
    forall i, j :: 0 <= i < j < |ps| ==> ps[i] != ps[j]
  }

  /** The values of a list of particle objects, in order. */
  ghost function ViewsOf(ps: seq<Particle>): (vs: seq<ParticleView>)
    reads ps
    ensures |vs| == |ps|
  {
    if ps == [] then [] else [ps[0].View()] + ViewsOf(ps[1..])
  }

  lemma {:induction false} ViewsOfAt(ps: seq<Particle>)
    ensures forall k :: 0 <= k < |ps| ==> ViewsOf(ps)[k] == ps[k].View()
  {
    if ps != [] {
      ViewsOfAt(ps[1..]);
    }
  }

  /** The `filter` of `removeDeadParticles`: the objects with age < lifespan, in order. */
  function Survivors(ps: seq<Particle>): (qs: seq<Particle>)
    reads ps
    ensures |qs| <= |ps|
  {
    if ps == [] then []
    else (if Alive(ps[0].View()) then [ps[0]] else []) + Survivors(ps[1..])
  }

  lemma ViewsOfAppend(a: seq<Particle>, b: seq<Particle>)
    ensures ViewsOf(a + b) == ViewsOf(a) + ViewsOf(b)
  {
    ViewsOfAt(a + b);
    ViewsOfAt(a);
    ViewsOfAt(b);
    assert forall k :: 0 <= k < |a + b| ==> ViewsOf(a + b)[k] == (ViewsOf(a) + ViewsOf(b))[k];
  }

  /** Filtering the objects yields exactly the culled list of their values. */
  lemma {:induction false} SurvivorsViews(ps: seq<Particle>)
    ensures ViewsOf(Survivors(ps)) == LiveOnly(ViewsOf(ps))
  {
    if ps != [] {
      SurvivorsViews(ps[1..]);
      var head := if Alive(ps[0].View()) then [ps[0]] else [];
      ViewsOfAppend(head, Survivors(ps[1..]));
    }
  }

  /** The survivors are exactly the objects of the list with age < lifespan. */
  lemma {:induction false} SurvivorsMembers(ps: seq<Particle>)
    ensures forall k :: 0 <= k < |Survivors(ps)| ==>
              Survivors(ps)[k] in ps && Alive(Survivors(ps)[k].View())
    ensures forall k :: 0 <= k < |ps| && Alive(ps[k].View()) ==> ps[k] in Survivors(ps)
  {
    if ps != [] {
      SurvivorsMembers(ps[1..]);
      assert forall k :: 1 <= k < |ps| ==> ps[k] == ps[1..][k - 1];
    }
  }

  /** Filtering a list without duplicates gives a list without duplicates. */
  lemma {:induction false} SurvivorsDistinct(ps: seq<Particle>)
    requires Distinct(ps)
    ensures Distinct(Survivors(ps))
  {
    if ps != [] {
      SurvivorsDistinct(ps[1..]);
      SurvivorsMembers(ps[1..]);
      var rest := Survivors(ps[1..]);
      assert ps[0] !in ps[1..];
      assert ps[0] !in rest;
    }
  }

  class ParticlesState {
    var particles: seq<Particle>
    const startPos: Vec2
    /** Whether the particle sprite has finished loading (`particleImage` is set). */
    var imageLoaded: bool
    var lastFrameTime: real
    var addCounter: real
    const addDelay: real

    /** The particle objects are pairwise distinct, so updating one leaves the others alone. */
    ghost predicate Valid()
      reads this
    {
      Distinct(particles) && addDelay == AddDelay
    }

    /** The simulated state as a value. */
    ghost function State(): SimState
      reads this, particles
    {
      SimState(ViewsOf(particles), addCounter, lastFrameTime)
    }

    /**
     * A new system at the given start point: no particles, accumulator 0, no
     * sprite yet. The timestamp is only seeded when the sprite loads.
     */
    constructor (startPos: Vec2)
      ensures Valid() && !imageLoaded && this.startPos == startPos
      ensures particles == [] && addCounter == 0.0 && lastFrameTime == 0.0
    {
      this.particles := [];
      this.startPos := startPos;
      this.imageLoaded := false;
      this.lastFrameTime := 0.0;
      this.addCounter := 0.0;
      this.addDelay := AddDelay;
    }

    /** The sprite's load callback: the sprite is present and the clock is seeded with `now`. */
    method OnImageLoad(now: real)
      requires Valid()
      modifies this`imageLoaded, this`lastFrameTime
      ensures Valid() && imageLoaded && lastFrameTime == now
    {
      imageLoaded := true;
      lastFrameTime := now;
    }

    /** Append the particle `Spawn(startPos, r)` as a fresh object; earlier particles are untouched. */
    method AddParticle(r: real)
      requires Valid() && 0.0 <= r < 1.0
      modifies this`particles
      ensures Valid()
      ensures |particles| == |old(particles)| + 1
      ensures particles == old(particles) + [particles[|old(particles)|]]
      ensures fresh(particles[|old(particles)|])
      ensures ViewsOf(particles) == old(ViewsOf(particles)) + [Spawn(startPos, r)]
    {
      var pos := Vec2(startPos.x - SpawnOffset, startPos.y - SpawnOffset);
      var rot := (r * 360.0).Floor as real;
      var p := new Particle(SpawnLifespan, pos, SpawnVelocity, rot);
      particles := particles + [p];
      ViewsOfAt(particles);
      ViewsOfAt(old(particles));
      assert ViewsOf(particles) == ViewsOf(old(particles)) + [p.View()];
    }

    /** Replace the list by its survivors (`removeDeadParticles`). */
    method RemoveDeadParticles()
      requires Valid()
      modifies this`particles
      ensures Valid()
      ensures ViewsOf(particles) == LiveOnly(old(ViewsOf(particles)))
      ensures forall q :: q in particles ==> q in old(particles) && Alive(q.View())
      ensures forall q :: q in old(particles) && Alive(q.View()) ==> q in particles
    {
      ghost var vs := ViewsOf(particles);
      SurvivorsViews(particles);
      SurvivorsDistinct(particles);
      SurvivorsMembers(particles);
      var survivors := Survivors(particles);
      assert ViewsOf(survivors) == LiveOnly(vs);
      particles := survivors;
    }

    /** The opacity `drawParticle` would draw this particle with, or None when the sprite is absent. */
    method DrawParticle(p: Particle) returns (alpha: Option<real>)
      ensures alpha.None? <==> !imageLoaded
      ensures alpha.Some? ==> alpha.value == Alpha(p.age, p.lifespan)
      ensures alpha.Some? && 0.0 <= p.age < p.lifespan ==> 0.0 <= alpha.value <= 1.0
    {
      if !imageLoaded {
        return None;
      }
      var a := 1.0;
      var remainingLife := p.lifespan - p.age;
      if p.age < 1.0 {
        a := p.age;
      } else if remainingLife < 1.0 {
        a := remainingLife;
      }
      alpha := Some(a);
    }

    /** Advance every particle in list order by dt (the first `forEach` of `update`). */
    method AdvanceParticles(dt: real)
      requires Valid()
      modifies particles
      ensures Valid() && unchanged(this)
      ensures ViewsOf(particles) == AdvanceAll(old(ViewsOf(particles)), dt)
    {
      ghost var before := ViewsOf(particles);
      ViewsOfAt(particles);
      for i := 0 to |particles|
        invariant forall k :: 0 <= k < i ==> particles[k].View() == Advance(before[k], dt)
        invariant forall k :: i <= k < |particles| ==> particles[k].View() == before[k]
      {
        particles[i].Update(dt);
      }
      ViewsOfAt(particles);
    }

    /** Draw every particle in list order (the second `forEach` of `update`); returns the opacities drawn. */
    method DrawParticles() returns (drawn: seq<real>)
      ensures drawn == DrawPass(ViewsOf(particles), imageLoaded)
    {
      drawn := [];
      for i := 0 to |particles|
        invariant !imageLoaded ==> drawn == []
        invariant imageLoaded ==> |drawn| == i
        invariant imageLoaded ==> forall k :: 0 <= k < i ==> drawn[k] == Alpha(particles[k].age, particles[k].lifespan)
      {
        var alpha := DrawParticle(particles[i]);
        if alpha.Some? {
          drawn := drawn + [alpha.value];
        }
      }
      ViewsOfAt(particles);
    }

    /**
     * One frame tick at `timestamp` (`update`), with r the random draw used if a
     * particle is spawned. The new state is `Step` of the old one, and the
     * opacities drawn are the draw pass over the survivors.
     */
    method Tick(timestamp: real, r: real) returns (drawn: seq<real>)
      requires Valid() && 0.0 <= r < 1.0
      modifies this`particles, this`lastFrameTime, this`addCounter, particles
      ensures Valid()
      ensures State() == Step(old(State()), startPos, timestamp, r)
      ensures drawn == DrawPass(State().particles, imageLoaded)
    {
      ghost var s0 := State();
      var dt := (timestamp - lastFrameTime) / 1000.0;
      assert dt == FrameDelta(s0.lastFrameTime, timestamp);
      lastFrameTime := timestamp;
      addCounter := addCounter + dt;
      ghost var due := SpawnDue(s0, timestamp);
      assert due == (addCounter >= addDelay);
      if addCounter >= addDelay {
        AddParticle(r);
        addCounter := 0.0;
      }
      ghost var spawned := ViewsOf(particles);
      assert spawned == AfterSpawn(s0, startPos, timestamp, r);
      AdvanceParticles(dt);
      RemoveDeadParticles();
      ghost var expected := Step(s0, startPos, timestamp, r);
      assert expected.particles == LiveOnly(AdvanceAll(spawned, dt));
      assert expected.addCounter == addCounter;
      assert expected.lastFrameTime == lastFrameTime;
      assert ViewsOf(particles) == expected.particles;
      assert State() == expected;
      drawn := DrawParticles();
    }
  }
}
