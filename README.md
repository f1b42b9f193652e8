# Smoke particle simulation — a Dafny model

This project models the particle simulation behind the smoke effect of the
`css-doodles` page: `src/particles/ParticlesState.ts`. A `ParticlesState` owns a
list of `Particle`s, a fixed start point, a spawn accumulator (`addCounter`) with a
fixed delay of 0.5 s (`addDelay`), the previous frame timestamp (`lastFrameTime`)
and the particle sprite. Every animation frame it computes the elapsed seconds,
adds them to the accumulator, spawns at most one particle (resetting the
accumulator to exactly 0), advances every particle by the elapsed time, removes
the particles whose age has reached their lifespan, and draws the survivors with
an opacity that fades in over the first second and out over the last.

The model has four modules:

- `Particles` (`particle.dfy`): `Vec2`, the value `ParticleView` of a particle,
  the motion rule `Advance`, and the mutable class `Particle` whose `Update`
  changes its fields in place.
- `Fade` (`fade.dfy`): the opacity envelope `Alpha` of `drawParticle`, pulled out
  as a pure function.
- `Simulation` (`simulation.dfy`): a value-level specification of one frame:
  `Spawn` (the spawn policy), `AdvanceAll`, `LiveOnly` (the cull filter),
  `Step` (the whole tick), `DrawPass` (the opacities drawn), and the lemmas about
  them: accumulator rule, at most one spawn, order-preserving cull, invariant
  preservation, and the worked scenarios.
- `System` (`system.dfy`): the class `ParticlesState` with the tick and the
  operations it is built from. `AddParticle`, `AdvanceParticles`,
  `RemoveDeadParticles`, `DrawParticles` and `Tick` are proved against their
  `Simulation` counterparts (`Spawn`, `AdvanceAll`, `LiveOnly`, `DrawPass`,
  `Step`): `Tick` leaves `State() == Step(old(State()), ...)` and returns
  exactly `DrawPass` of the survivors. `DrawParticle` is proved against
  `Fade.Alpha`; the constructor and `OnImageLoad` state the fields they set.

JavaScript numbers are exact reals here. The timestamp of a tick, the value of
`performance.now()` when the sprite loads, and the value of `Math.random()` are
parameters. Drawing is modelled as the sequence of opacities drawn; it is empty
while the sprite is absent.

## Model

| member | source | states |
|---|---|---|
| `Particles.Advance` | src/particles/ParticlesState.ts:22-26 | age grows by exactly dt; position moves by velocity.x*dt and velocity.y*dt; velocity, lifespan and rotation stay the same |
| `Particles.AdvanceByZero` | src/particles/ParticlesState.ts:22-26 | `update(0)` changes nothing |
| `Particles.AdvanceAgesMonotonically` | src/particles/ParticlesState.ts:25 | with dt >= 0 age never decreases, and a particle alive after an update was alive before it |
| `Particles.AdvanceComposes` | src/particles/ParticlesState.ts:22-26 | two updates by dt1 and dt2 equal one update by dt1 + dt2 |
| `Particles.Particle.constructor` | src/particles/ParticlesState.ts:14-19 | a new particle has age 0 and exactly the given lifespan, position, velocity and rotation |
| `Particles.Particle.Update` | src/particles/ParticlesState.ts:22-26 | in-place update: the new fields are `Advance` of the old ones |
| `Fade.Alpha` | src/particles/ParticlesState.ts:116-122 | for 0 <= age < lifespan the opacity lies in [0, 1]; for lifespan >= 2 it equals min(age, lifespan - age, 1) |
| `Fade.AlphaSamples` | src/particles/ParticlesState.ts:116-122 | with lifespan 5 the opacity at ages 0, 0.5, 2.5, 4.5, 4.99 is 0, 0.5, 1, 0.5, 0.01 |
| `Simulation.FrameDelta` | src/particles/ParticlesState.ts:60 | dt is the millisecond difference divided by 1000, non-negative when timestamps do not go back |
| `Simulation.Spawn` | src/particles/ParticlesState.ts:85-91 | a spawned particle has age 0, lifespan 5, position (startPos.x - 25, startPos.y - 25), velocity (0, -10) and an integer rotation in [0, 360) |
| `Simulation.AdvanceAll` | src/particles/ParticlesState.ts:74 | every particle of the list, in order, is advanced by the same dt |
| `Simulation.LiveOnly` | src/particles/ParticlesState.ts:96-98 | the result keeps exactly the particles with age < lifespan and is no longer than the input |
| `Simulation.LiveOnlyAppend` | src/particles/ParticlesState.ts:97 | culling distributes over concatenation, so survivors keep their original order |
| `Simulation.LiveOnlyKeepsAllIffAlive` | src/particles/ParticlesState.ts:97 | the cull leaves a list unchanged if and only if every particle in it is alive |
| `Simulation.LiveOnlyIdempotent` | src/particles/ParticlesState.ts:97 | culling twice is culling once |
| `Simulation.CullAtLifespan` | src/particles/ParticlesState.ts:97 | a particle whose age equals its lifespan is removed |
| `Simulation.SpawnDue` | src/particles/ParticlesState.ts:60-68 | the spawn test `addCounter + dt >= 0.5`: a frame of at least 500 ms from a non-negative accumulator always spawns, an accumulator already at 0.5 spawns on any frame that does not go back, and a frame with no elapsed time never spawns from an accumulator below 0.5 |
| `Simulation.AfterSpawn` | src/particles/ParticlesState.ts:68-71 | the spawn step keeps the old list as a prefix and appends exactly `Spawn(startPos, r)` when the accumulator reaches the delay, nothing otherwise |
| `Simulation.Step` | src/particles/ParticlesState.ts:58-77 | after a tick `lastFrameTime` is the tick's timestamp, every particle is alive, and at most one particle was added |
| `Simulation.StepAccumulator` | src/particles/ParticlesState.ts:62-71 | below 0.5 the accumulator becomes old + dt and nothing is spawned; at or above 0.5 it becomes exactly 0, with no overshoot carried |
| `Simulation.StepSplit` | src/particles/ParticlesState.ts:68-77 | the new list is the advanced, culled old list followed by the advanced, culled spawned particle when a spawn was due |
| `Simulation.SpawnedParticleInStep` | src/particles/ParticlesState.ts:68-77 | a particle spawned in a tick leaves it last in the list with age dt and position (startPos.x - 25, startPos.y - 25 - 10*dt) when dt < 5, and is culled in the same tick when dt >= 5 |
| `Simulation.InitialWellFormed` | src/particles/ParticlesState.ts:30-37 | the empty state with accumulator 0 satisfies the invariant |
| `Simulation.AdvanceAllShaped` | src/particles/ParticlesState.ts:74 | a non-negative advance keeps lifespan, velocity and rotation and a non-negative age |
| `Simulation.StepPreservesWellFormed` | src/particles/ParticlesState.ts:58-94 | ticks with non-decreasing timestamps keep the accumulator in [0, 0.5) and every particle alive, of age >= 0, lifespan 5, velocity (0, -10) and integer rotation in [0, 360) |
| `Simulation.DrawPass` | src/particles/ParticlesState.ts:100-123 | without the sprite nothing is drawn; with it one opacity per particle, in list order, each `Alpha` of that particle |
| `Simulation.DrawnAlphasInUnitInterval` | src/particles/ParticlesState.ts:116-123 | in a well-formed state every opacity drawn lies in [0, 1] |
| `Simulation.TwoShortTicksSpawnOnce` | src/particles/ParticlesState.ts:60-71 | two ticks of 0.3 s spawn exactly one particle; the accumulator is 0.3 after the first and 0 (not 0.1) after the second |
| `Simulation.EndToEndScenario` | src/particles/ParticlesState.ts:58-94 | from start point (100, 100): no spawn at 0 ms; one particle at 500 ms, spawned at (75, 75) and moved to (75, 70); a single tick at 5500 ms culls it and the particle it spawns |
| `System.Survivors` | src/particles/ParticlesState.ts:96-98 | the object-level `filter` run by `removeDeadParticles`: no longer than its input; with `SurvivorsViews`, `SurvivorsMembers` and `SurvivorsDistinct` its values are `LiveOnly` of the input's, its members are exactly the live objects of the input, and it has no duplicates |
| `System.SurvivorsViews` | src/particles/ParticlesState.ts:96-98 | filtering the particle objects gives exactly the culled list of their values |
| `System.SurvivorsMembers` | src/particles/ParticlesState.ts:97 | the survivors are objects of the old list with age < lifespan, and every such object survives |
| `System.SurvivorsDistinct` | src/particles/ParticlesState.ts:97 | the filter never duplicates a particle object |
| `System.ParticlesState.constructor` | src/particles/ParticlesState.ts:40-44 | a new system has no particles, accumulator 0, the given start point and no sprite |
| `System.ParticlesState.OnImageLoad` | src/particles/ParticlesState.ts:51-55 | after the sprite loads it is present and `lastFrameTime` is the load time |
| `System.ParticlesState.AddParticle` | src/particles/ParticlesState.ts:85-94 | one fresh particle, equal to `Spawn(startPos, r)`, is appended; the earlier objects and their values are unchanged |
| `System.ParticlesState.RemoveDeadParticles` | src/particles/ParticlesState.ts:96-98 | the new list's values are `LiveOnly` of the old ones; the objects kept are exactly the old list's objects with age < lifespan (the same objects, not copies); no object is duplicated |
| `System.ParticlesState.AdvanceParticles` | src/particles/ParticlesState.ts:74 | each particle object is updated in place by dt; the list and the system's own fields are unchanged |
| `System.ParticlesState.DrawParticle` | src/particles/ParticlesState.ts:100-123 | no opacity when the sprite is absent; otherwise `Alpha(age, lifespan)`, which lies in [0, 1] for a live particle |
| `System.ParticlesState.DrawParticles` | src/particles/ParticlesState.ts:80 | the opacities drawn are exactly `DrawPass` of the current particles |
| `System.ParticlesState.Tick` | src/particles/ParticlesState.ts:58-83 | the new state is `Step` of the old state and the opacities drawn are `DrawPass` of the survivors; the sprite is untouched |

## Left out

- Canvas drawing (`clearRect`, `save`, `translate`, `rotate`, `globalAlpha`, `drawImage`, `restore`): rendering side effects on a browser API; a draw is modelled as the opacity it would set.
- The degree-to-radian conversion with `Math.PI` in `drawParticle`: a transcendental constant passed only to the canvas.
- Image loading, `window.location`, `requestAnimationFrame` and the self-rescheduling loop: browser plumbing. The load callback is `OnImageLoad(now)`, where `now` stands for `performance.now()`; each frame is a call to `Tick(timestamp, r)`.
- `Math.random()`: the random draw is the parameter `r` with 0 <= r < 1, used only when a particle is spawned.
- IEEE-754 rounding: numbers are exact reals, so the accumulator and age comparisons are exact in the model (0.3 + 0.3 is exactly 0.6).
- `lastFrameTime` is undefined in the source until the sprite loads; the constructor sets it to 0 and `OnImageLoad` seeds it.
- `Vec2` is a class in the source; every particle receives a fresh one that nothing else references, so it is a value here and the in-place writes to `position.x` and `position.y` become reassignments of the particle's `position`.
- The emission point `startPos` is captured by value when the system is built; the source keeps the caller's `Vec2` object by reference and re-reads its coordinates at every spawn, so a caller that mutates that object afterwards is not modelled.
- The default rotation 0 of the `Particle` constructor: Dafny constructors have no default arguments, and the only caller passes a rotation.
- The unused `maxParticles` field and the `mobx` import: they have no behaviour.
- `src/App.tsx`: page composition only, not part of this model.
- Negative or non-monotonic timestamps are not rejected, as in the source; the invariant lemma assumes timestamps that do not go back.
- The code updates `lastFrameTime` and the accumulator before clearing the canvas; since the canvas is not modelled, that order has no effect on the model.
