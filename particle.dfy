/**
 * A single particle of the smoke effect: its value-level view, the motion rule
 * that `Particle.update` applies, and the mutable particle object itself.
 * JavaScript numbers are modelled as exact reals.
 */
module Particles {

  /** A 2D vector (`Vec2`). Every particle owns a fresh one, so it is a value here. */
  datatype Vec2 = Vec2(x: real, y: real)

  /** A snapshot of every field of a particle. */
  datatype ParticleView = ParticleView(
    age: real,       // simulated seconds since spawn
    lifespan: real,  // seconds the particle may live
    position: Vec2,
    velocity: Vec2,
    rotation: real)  // degrees, fixed at spawn

  /** A particle is alive while its age is strictly below its lifespan. */
  predicate Alive(v: ParticleView)
  {
    v.age < v.lifespan
  }

  /** The effect of `update(dt)`: move by velocity * dt on each axis and age by dt. */
  function Advance(v: ParticleView, dt: real): (w: ParticleView)
    ensures w.age - v.age == dt
    ensures w.position.x - v.position.x == v.velocity.x * dt
    ensures w.position.y - v.position.y == v.velocity.y * dt
    ensures w.velocity == v.velocity && w.lifespan == v.lifespan && w.rotation == v.rotation
  {
    v.(age := v.age + dt,
       position := Vec2(v.position.x + v.velocity.x * dt, v.position.y + v.velocity.y * dt))
  }

  /** `update(0)` changes nothing. */
  lemma AdvanceByZero(v: ParticleView)
    ensures Advance(v, 0.0) == v
  {
  }

  /** A non-negative step never makes a particle younger. */
  lemma AdvanceAgesMonotonically(v: ParticleView, dt: real)
    requires 0.0 <= dt
    ensures v.age <= Advance(v, dt).age
    ensures Alive(Advance(v, dt)) ==> Alive(v)
  {
  }

  /** Two steps of dt1 and dt2 land where one step of dt1 + dt2 lands. */
  lemma AdvanceComposes(v: ParticleView, dt1: real, dt2: real)
    ensures Advance(Advance(v, dt1), dt2) == Advance(v, dt1 + dt2)
  {
  }

  /** The mutable particle (`Particle`). */
  class Particle {
    var age: real
    var lifespan: real
    var position: Vec2
    var velocity: Vec2
    var rotation: real

    /** All fields of this particle as a value. */
    function View(): ParticleView
      reads this
    {
      ParticleView(age, lifespan, position, velocity, rotation)
    }

    /** A new particle starts at age 0 with the given lifespan, position, velocity and rotation. */
    constructor (lifespan: real, position: Vec2, velocity: Vec2, rotation: real)
      ensures View() == ParticleView(0.0, lifespan, position, velocity, rotation)
    {
      this.age := 0.0;
      this.lifespan := lifespan;
      this.position := position;
      this.velocity := velocity;
      this.rotation := rotation;
    }

    /** Advance this particle in place by dt seconds; nothing else changes. */
    method Update(dt: real)
      modifies this
      ensures View() == Advance(old(View()), dt)
    {
      position := position.(x := position.x + velocity.x * dt);
      position := position.(y := position.y + velocity.y * dt);
      age := age + dt;
    }
  }
}
