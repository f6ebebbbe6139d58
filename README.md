# Climax particle engine, modelled in Dafny

Climax is a Cinder app that draws a swarm of particles reacting to music.
This project models the core of its simulation and proves properties of
that model:

- **Particles.** A particle integrates its velocity and accumulated forces.
  It stays inside the window by bouncing or wrapping around. It steers by
  three flocking rules: separation, alignment and cohesion.
- **Springs.** A spring pulls its two endpoint particles toward a rest
  length. The step is weighted by their inverse masses.
- **Particle system.** The system keeps an ordered list of particles and an
  ordered list of springs, both handled by object identity. Each frame it
  evicts the oldest particle when the list is over its limit. It then moves
  every particle in list order and relaxes every spring in list order.
- **Beat spawn.** On a strong beat the app spawns new particles one at a
  time. Before each new particle is appended, it gets a spring to every
  listed particle that passes a distance gate.
- **Clusters.** A particle cluster is a list of particles with a colour and
  two flocking thresholds.
- **Beat tapper.** A small state machine raises a one-shot beat flag once
  per beat period.
- **Touch trails.** A touch trail is a polyline that only grows, plus a
  time-of-death rule.

The source's form is kept where it changes state in place. `Particle`,
`Spring`, `ParticleSystem`, `ParticleCluster`, `BpmTapper` and `TouchPoint`
are classes whose methods update their fields. A spring's update writes
through to the two particle objects it points at. The methods that compute
(a particle's integration, borders and flocking, a spring's update, the
system's frame, the tapper's transitions) are proved equal to functions on
values: `Body` for a particle's state, a position map for the springs'
endpoints, a `Tapper` record for the tapper. The properties are lemmas
about those functions. The list operations of the system and the cluster,
and the touch trail's methods, are specified directly on the fields they
change.

Two quantities come in as parameters:

- **Vector length.** Floats and `sqrt` cannot be expressed exactly over the
  reals, so vector length is a parameter `len: Vec2 -> real`. Properties
  that need a real norm require `IsLength(len)`: non-negative, zero exactly
  at the zero vector, and absolutely homogeneous. `normalize` and `limit`
  are defined from `len` as Cinder defines them.
- **Inputs from outside the simulation.** Clock readings, the beat value
  and the random spawn positions are parameters.

Behaviour kept as the code has it:

- **Cohesion never steers.** `cohesion` only updates its accumulator while
  the accumulator is non-zero. The accumulator starts at zero, so the
  result is always zero (`CohesionIsZero`).
- **Particle radius.** The particle constructor ignores its `radius`
  argument. It derives the radius from the two thresholds instead
  (`DerivedRadius`).
- **Eviction.** The `int` limit is compared with the `size_t` list size. A
  negative limit therefore never evicts (`EvictionRule`).

## Model

| member | source | states |
|---|---|---|
| Vectors.NormalizedIsUnit | src/Particle.cpp:88 | normalising a non-zero vector gives a vector of length 1 |
| Vectors.LimitBounded | src/Particle.cpp:54 | `limit(m)` never leaves a vector longer than `m`, and does not change one that is already within `m` |
| Lists.Find | src/ParticleSystem.cpp:70 | `std::find` returns the first position holding the element |
| Lists.RemoveFirst | src/ParticleSystem.cpp:70-72 | erasing the found position removes exactly the first occurrence: earlier elements stay in place, later ones shift down by one, and the multiset loses one copy |
| Lists.RemoveFront | src/ParticleSystem.cpp:26-27 | removing the front element drops the head of the list |
| Lists.RemoveFirstDistinct | src/ParticleSystem.cpp:68-73 | removal keeps a list without duplicates free of duplicates, and the removed element is gone |
| Lists.RemoveAppended | src/ParticleCluster.cpp:11-21 | removing an element just appended to a list that did not hold it restores the list |
| Particles.DerivedRadius | src/Particle.cpp:19-21 | the constructed radius is 1.6 times the ratio of the thresholds, capped at 10 |
| Particles.Integrated | src/Particle.cpp:35-43 | defines `update` on a particle's state: the position moves by velocity plus forces over mass, the old position is kept as the previous one, and the forces are cleared (properties in `IntegrationStep`) |
| Particles.IntegrationStep | src/Particle.cpp:35-43 | one step records the old position, moves by velocity plus forces over mass, clears the forces, and changes nothing else |
| Particles.Bounced | src/Particle.cpp:61-65 | defines `borders(true)`: each velocity component is negated when its edge is reached (properties in `BounceReflects`) |
| Particles.Wrapped | src/Particle.cpp:66-79 | defines `borders(false)`: the first edge reached, in the order left, top, right, bottom, moves the particle one radius inside the opposite edge (properties in `WrapTeleports`) |
| Particles.Bordered | src/Particle.cpp:57-80 | `borders` chooses bouncing or wrapping by its flag |
| Particles.BounceReflects | src/Particle.cpp:61-65 | bouncing changes only the velocity, negates each component exactly when its edge is reached, and undoes itself when applied twice |
| Particles.WrapTeleports | src/Particle.cpp:66-79 | wrapping changes only the position, rewrites at most one coordinate with left before top before right before bottom, sends the particle one radius inside the opposite edge, and leaves a particle clear of every edge in place |
| Particles.SteerToward | src/Particle.cpp:82-96 | defines `steer`: toward a distinct target, the desired velocity (slowed within 100 units when asked) minus the velocity, limited to `maxForce`; zero at the particle's own position (properties in `SteerAtTarget`, `SteeringBounded`) |
| Particles.SeparationOf | src/Particle.cpp:98-127 | defines `separate`: the average of the inverse-distance-weighted unit offsets from the particles closer than `targetSeparation`, turned into a steering force (properties in `NoNeighboursNoSteering`, `SteeringBounded`) |
| Particles.AlignmentOf | src/Particle.cpp:129-154 | defines `align`: the average velocity of the particles closer than `neighboringDistance`, turned into a steering force (properties in `NoNeighboursNoSteering`, `SteeringBounded`) |
| Particles.CohesionOf | src/Particle.cpp:156-181 | defines `cohesion` as written: the accumulator is only updated while it is non-zero (properties in `CohesionScanIdle`, `CohesionIsZero`) |
| Particles.Flocked | src/Particle.cpp:45-55 | defines `flock`: the three weighted rules are added to the velocity, which is then limited to `maxSpeed`; nothing else changes (properties in `FlockBounded`) |
| Particles.NeighbourCountZeroIff | src/Particle.cpp:98-154 | no particle counts as a neighbour exactly when none lies strictly between distance 0 and the radius |
| Particles.CoincidentNeverNear | src/Particle.cpp:106-107 | a particle never counts itself or one at its own position as a neighbour |
| Particles.SeparationSumWithoutNeighbours | src/Particle.cpp:98-127 | without neighbours the separation accumulator stays zero |
| Particles.VelocitySumWithoutNeighbours | src/Particle.cpp:129-154 | without neighbours the alignment accumulator stays zero |
| Particles.NoNeighboursNoSteering | src/Particle.cpp:98-154 | without neighbours `separate` and `align` return the zero vector |
| Particles.SteerAlongBounded | src/Particle.cpp:119-125 | the steering tail of `separate` and `align` never exceeds `maxForce` |
| Particles.SteeringBounded | src/Particle.cpp:82-154 | `separate`, `align` and `steer` all return a force no longer than `maxForce` |
| Particles.SteerAtTarget | src/Particle.cpp:82-96 | steering toward one's own position gives the zero vector |
| Particles.CohesionScanIdle | src/Particle.cpp:158-174 | the cohesion loop never leaves its zero start: the accumulator stays zero and the count stays 0 |
| Particles.CohesionIsZero | src/Particle.cpp:156-181 | `cohesion` returns the zero vector for every particle list |
| Particles.FlockBounded | src/Particle.cpp:45-55 | after flocking the speed is at most `maxSpeed` |
| Particles.FlockOnlyLimitsWithoutSeparationAndAlignment | src/Particle.cpp:45-55 | with separation and alignment off, flocking only limits the current velocity |
| Particles.Particle.constructor | src/Particle.cpp:4-33 | position, previous position and anchor are the given point; forces and velocity are zero; radius is derived; speed and force limits are 1 and 0.05; the three rules are off with factor 1 |
| Particles.Particle.Update | src/Particle.cpp:35-43 | the new state is the integration step of the old one |
| Particles.Particle.Borders | src/Particle.cpp:57-80 | the new state is the bounce or wrap of the old one |
| Particles.Particle.Flock | src/Particle.cpp:45-55 | only the velocity changes, to the flocked velocity against the list's states |
| Particles.Particle.Separate | src/Particle.cpp:98-127 | the loop returns the separation force of the particle against the list |
| Particles.Particle.Align | src/Particle.cpp:129-154 | the loop returns the alignment force of the particle against the list |
| Particles.Particle.Cohesion | src/Particle.cpp:156-181 | the loop returns the cohesion force, which is zero |
| Springs.NormDist | src/Spring.cpp:14-19 | defines `normDist`: the length error over the length times the summed inverse masses, times the strength |
| Springs.Relaxed | src/Spring.cpp:12-22 | defines `update` on the two positions: `a` moves by `-delta * normDist / ma`, `b` by `+delta * normDist / mb` (properties in `RelaxedDistance` and the lemmas beside it) |
| Springs.RelaxedAtRest | src/Spring.cpp:12-22 | a spring at its rest length moves neither endpoint |
| Springs.RelaxedKeepsWeightedSum | src/Spring.cpp:16-21 | a step keeps the mass-weighted sum of the endpoints, so the centre of mass stays put |
| Springs.RelaxedAlongDelta | src/Spring.cpp:20-21 | each endpoint moves along the line joining the two, in inverse proportion to its mass |
| Springs.RelaxedDifference | src/Spring.cpp:14-21 | the new separation vector is the old one scaled by `(L - strength(L - rest)) / L` |
| Springs.RelaxedDistance | src/Spring.cpp:14-21 | the new distance is `L - strength(L - rest)`; with strength 1 it is exactly the rest length |
| Springs.Spring.constructor | src/Spring.cpp:4-10 | stores the two particles, the rest length and the strength |
| Springs.Spring.Update | src/Spring.cpp:12-22 | the two endpoints are distinct, and their new positions are one relaxation step from the old ones |
| ParticleSystems.ShouldEvict | src/ParticleSystem.cpp:26 | defines the eviction test: the list size exceeds the `int` limit converted to a 64-bit `size_t` (properties in `EvictionRule`) |
| ParticleSystems.EvictionRule | src/ParticleSystem.cpp:26 | with a 32-bit limit, eviction happens exactly when the limit is non-negative and below the list size |
| ParticleSystems.Evicted | src/ParticleSystem.cpp:26-27 | eviction removes exactly one particle, and no eviction changes nothing |
| ParticleSystems.Step | src/ParticleSystem.cpp:29-33 | one iteration changes only the visited particle and keeps its mass |
| ParticleSystems.Sweep | src/ParticleSystem.cpp:29-33 | the pass keeps the list's length and masses, and does not touch the particles it has not reached |
| ParticleSystems.SweepOrder | src/ParticleSystem.cpp:29-33 | particle j flocks against the list as it is then: moved particles before it, its own advanced state, and unmoved particles after it |
| ParticleSystems.SweepMoves | src/ParticleSystem.cpp:30-32 | after the pass each particle is bordered and integrated, and flocking changed only its velocity |
| ParticleSystems.SweepBoundsSpeed | src/ParticleSystem.cpp:29-33 | after the pass every particle's speed is at most its `maxSpeed` |
| ParticleSystems.SweepLast | src/ParticleSystem.cpp:29-33 | the particle of the latest iteration flocked against the list as it then stood |
| ParticleSystems.BorderedKeeps | src/Particle.cpp:57-80 | `borders` changes only the position and the velocity |
| ParticleSystems.MoveAll | src/ParticleSystem.cpp:29-33 | over a list of distinct particles with nonzero masses, the loop leaves every particle in the state the in-order pass gives |
| ParticleSystems.MoveOne | src/ParticleSystem.cpp:30-32 | one iteration advances the pass over the list by exactly one particle |
| ParticleSystems.Advance | src/ParticleSystem.cpp:30-31 | `borders` then `update` changes only the visited particle, to its bordered and integrated state |
| ParticleSystems.RelaxStep | src/ParticleSystem.cpp:35-36 | relaxing one spring keeps the set of tracked particles |
| ParticleSystems.RelaxAll | src/ParticleSystem.cpp:35-37 | the spring pass keeps the set of tracked particles |
| ParticleSystems.RelaxMovesOnlyEndpoints | src/ParticleSystem.cpp:35-37 | a particle that is no spring's endpoint is not moved by the spring pass |
| ParticleSystems.EvictionBreaksClosure | src/ParticleSystem.cpp:26-27 | evicting the front particle keeps every spring endpoint in the list exactly when no spring uses that particle |
| ParticleSystems.RelaxOne | src/Spring.cpp:12-22 | updating one spring changes the endpoint positions as one relaxation step |
| ParticleSystems.ParticleSystem.constructor | src/ParticleSystem.h:32-35 | both lists start empty |
| ParticleSystems.ParticleSystem.Clear | src/ParticleSystem.cpp:10-22 | both lists are empty afterwards |
| ParticleSystems.ParticleSystem.AddParticle | src/ParticleSystem.cpp:63-66 | the particle is appended, and the springs are untouched |
| ParticleSystems.ParticleSystem.DestroyParticle | src/ParticleSystem.cpp:68-73 | the first occurrence is removed, the others keep their order, the springs are untouched, and the particle is gone from a list without duplicates |
| ParticleSystems.ParticleSystem.AddSpring | src/ParticleSystem.cpp:75-78 | the spring is appended, and the particles are untouched |
| ParticleSystems.ParticleSystem.DestroySpring | src/ParticleSystem.cpp:80-85 | the first occurrence is removed, and the others keep their order |
| ParticleSystems.ParticleSystem.SetBorders | src/ParticleSystem.cpp:87-90 | the borders become the given area |
| ParticleSystems.ParticleSystem.Evict | src/ParticleSystem.cpp:26-27 | the front particle goes exactly when the size exceeds the limit converted to `size_t` |
| ParticleSystems.ParticleSystem.MoveParticles | src/ParticleSystem.cpp:29-33 | the particles' new states are the in-order pass over their old states |
| ParticleSystems.ParticleSystem.RelaxSprings | src/ParticleSystem.cpp:35-37 | the endpoints' new positions are the in-order spring pass over their old positions |
| ParticleSystems.ParticleSystem.RelaxAfter | src/ParticleSystem.cpp:35-37 | the spring loop moves only endpoint positions, by the in-order spring pass, and leaves every other part of the particles' states as the particle loop left it |
| ParticleSystems.ParticleSystem.Animate | src/ParticleSystem.cpp:29-37 | the spring pass starts from the positions the particle pass produced, and endpoints outside the list start from where they were |
| ParticleSystems.ParticleSystem.Update | src/ParticleSystem.cpp:24-38 | one frame evicts as the limit demands, runs the particle pass over the remaining list, then runs the spring pass from the moved positions; the spring list is unchanged, and an evicted particle that is still a spring endpoint can only be moved |
| Spawning.SpawnCount | src/ParticleSystemApp.cpp:286 | the spawn count is `beatValue * 40` truncated toward zero |
| Spawning.Gate | src/ParticleSystemApp.cpp:288-295 | defines the spawn gate: the beat force exceeds the minimum and the force centre is strictly inside the window |
| Spawning.Linkable | src/ParticleSystemApp.cpp:305-308 | defines the spring rule: the distance is positive and at most 100 times the summed radii, and that reach is below 500 |
| Spawning.LinksTo | src/ParticleSystemApp.cpp:304-311 | defines the scan for one new particle: a spring with rest 1.2 times the distance to each listed particle that passes the rule, in list order (properties in `LinksToSound`, `LinksToComplete`, `LinksToOrdered`) |
| Spawning.Plan | src/ParticleSystemApp.cpp:300-314 | defines the springs of a whole spawn: the scans of the new particles in order, each against the list as it stands then (properties in `PlanSound`, `PlanComplete`, `PlanOrdered`) |
| Spawning.LinksToLast | src/ParticleSystemApp.cpp:304-311 | scanning one more listed particle adds a spring to it exactly when it passes the gate, with rest length 1.2 times the distance |
| Spawning.LinksToSound | src/ParticleSystemApp.cpp:304-311 | every spring from the scan starts at the new particle, ends at an earlier particle that passes the gate, and has rest 1.2 times their distance |
| Spawning.LinksToOrdered | src/ParticleSystemApp.cpp:304 | the scan's springs follow the list order of their targets |
| Spawning.LinksToComplete | src/ParticleSystemApp.cpp:304-311 | every listed particle that passes the gate gets a spring from the new particle |
| Spawning.ScanLinked | src/ParticleSystemApp.cpp:304-311 | the scan links the new particle to each listed particle that passes the gate |
| Spawning.PlanLast | src/ParticleSystemApp.cpp:300-314 | spawning one more particle appends its scan to the springs made so far |
| Spawning.PlanSound | src/ParticleSystemApp.cpp:300-314 | every spring made by a spawn joins a new particle to an earlier one that passes the gate; no particle gets a spring to itself |
| Spawning.LinksToFrom | src/ParticleSystemApp.cpp:309 | every spring from one scan starts at the particle being placed |
| Spawning.PlanFrom | src/ParticleSystemApp.cpp:300-314 | every spring starts at a particle of the list as it is after the spawn |
| Spawning.PlanOrdered | src/ParticleSystemApp.cpp:300-314 | springs come in spawn order, and within one spawn in list order |
| Spawning.PlanComplete | src/ParticleSystemApp.cpp:300-314 | every pair of a new particle and an earlier one that passes the gate, including one spawned earlier in the same loop, gets a spring |
| Spawning.LinkNewParticle | src/ParticleSystemApp.cpp:304-311 | the loop appends, in list order, one spring per gated particle: from the new particle, with rest 1.2 times the distance and strength 0.001 |
| Spawning.SpawnOne | src/ParticleSystemApp.cpp:301-313 | one iteration constructs the particle, appends its springs, and then appends the particle itself |
| Spawning.SpawnOnBeat | src/ParticleSystemApp.cpp:286-316 | on a beat above the minimum with the force centre inside the window, exactly the spawn count of particles is appended, each as constructed from its position, and the springs appended are exactly the plan; otherwise nothing changes |
| Spawning.SpawnAll | src/ParticleSystemApp.cpp:300-314 | the loop appends `count` fresh particles, and the springs the plan prescribes for them |
| Spawning.GrownNext | src/ParticleSystemApp.cpp:300-314 | appending one more particle with its scan's springs keeps the list, the spring list and the plan in step |
| Spawning.SpawnNext | src/ParticleSystemApp.cpp:300-314 | one more iteration extends the spawn by one fresh particle and its scan |
| Clusters.ParticleCluster.constructor | src/ParticleCluster.h:13-19 | stores the thresholds and the colour; the list starts empty |
| Clusters.ParticleCluster.AddParticle | src/ParticleCluster.h:21-23 | the particle is appended, and earlier particles are unchanged |
| Clusters.ParticleCluster.RemoveParticle | src/ParticleCluster.h:24-28 | the particle must be present; its first occurrence is removed, the rest keep their order, and the length drops by one |
| Clusters.AddThenRemove | src/ParticleCluster.cpp:11-21 | adding an absent particle and removing it leaves the cluster's list as it was |
| Tapping.PastBeat | src/BpmTapper.h:48-51 | defines the beat test: the timer reads more than `60000 / bpm / 1000` seconds |
| Tapping.Started | src/BpmTapper.h:30-34 | defines `start` on the tapper's state |
| Tapping.Stopped | src/BpmTapper.h:36-40 | defines `stop` on the tapper's state |
| Tapping.Updated | src/BpmTapper.h:42-56 | defines `update` on the tapper's state (properties in `UpdateBeats`, `BeatLastsOneUpdate`) |
| Tapping.BeatPeriod | src/BpmTapper.h:48-51 | for a nonzero tempo the beat test is "elapsed seconds past 60 / bpm" |
| Tapping.DisabledIsInert | src/BpmTapper.h:31-43 | a disabled tapper is unchanged by start, stop and update |
| Tapping.UpdateBeats | src/BpmTapper.h:42-56 | when enabled, update raises the beat exactly when the timer was running and past one period, stops the timer exactly then, and keeps the tempo |
| Tapping.BeatLastsOneUpdate | src/BpmTapper.h:44-53 | a beat is cleared by the next update, which restarts the timer |
| Tapping.BpmTapper.constructor | src/BpmTapper.h:25-28 | no beat, disabled, timer stopped |
| Tapping.BpmTapper.Start | src/BpmTapper.h:30-34 | when enabled, runs the timer and clears the beat; otherwise nothing changes |
| Tapping.BpmTapper.Stop | src/BpmTapper.h:36-40 | when enabled, stops the timer and clears the beat; otherwise nothing changes |
| Tapping.BpmTapper.Update | src/BpmTapper.h:42-56 | the new state is one update of the old one with the timer's reading |
| Tapping.BpmTapper.SetBpm | src/BpmTapper.h:58-60 | only the tempo changes |
| Tapping.BpmTapper.OnBeat | src/BpmTapper.h:62-64 | returns the beat flag |
| Touches.TouchPoint.constructor | src/TouchPoint.h:8-11 | the line is the initial point, the colour is stored, and the time of death is -1 |
| Touches.TouchPoint.AddPoint | src/TouchPoint.h:13-16 | the point is appended to the line |
| Touches.TouchPoint.StartDying | src/TouchPoint.h:28-32 | the time of death becomes two seconds after now |
| Touches.TouchPoint.IsDead | src/TouchPoint.h:34-37 | defines `isDead`: the clock is past the time of death (properties in `NewTrailIsDead`, `DyingTrail`) |
| Touches.NewTrailIsDead | src/TouchPoint.h:8-11 | a trail that never started dying is dead at every time after -1 |
| Touches.DyingTrail | src/TouchPoint.h:28-37 | after starting to die at `t`, a trail is alive up to `t + 2` and dead after it, and its line is kept |

## Left out

- Drawing is not modelled. `Particle::draw`, `Spring::draw`, `ParticleSystem::draw`, `TouchPoint::draw` and the app's draw functions only issue GL calls.
- `MaxiPlayer.h`, the FFT beat level, Perlin noise, the sine and cosine spawn path and the random helpers are not modelled. The beat value, the beat force and the spawn positions are inputs. The random radius is passed in as it is.
- `ClimaxApp.cpp` and the rest of `ParticleSystemApp.cpp` are not part of this model: setup, settings persistence, touch, mouse and key handlers, and window settings.
- Floating point is not modelled. Reals stand for floats, with no rounding, no NaN and no infinities, and vector length is a parameter.
- A division whose divisor the source does not guard becomes a requirement:
  - `Particle.Update` requires a nonzero mass.
  - `Spring.Update` requires its endpoints apart and inverse masses that exist and do not cancel.
  - Spawning requires a nonzero radius square, and the particle constructor a nonzero neighbouring distance.
- ParticleSystems.RelaxStep skips a spring whose update would divide by zero. In floats the source writes NaN positions for it.
- ParticleSystems.ParticleSystem.AddParticle requires a particle that is not listed yet and has a nonzero mass. The source has neither requirement, but the frame update needs both: identity removal assumes no duplicates, and integration divides by the mass.
- `delete` is not modelled: not in eviction, `destroyParticle`, `destroySpring`, `clear` or the destructor. Destroyed and evicted particles and springs stay allocated, and `Clear` only empties the lists. A spring whose endpoint was evicted keeps moving that particle, where the source touches freed memory. `EvictionBreaksClosure` states when this happens.
- Each frame evicts at most one particle, as the source does. A list far over its limit shrinks by one particle per frame.
- The header declarations that disagree with `Particle.cpp` are not modelled; the `.cpp` definitions are. `computeBspline`, which is declared and never defined, and the unused `MAX_PARTICLES` macro are left out.
- `ParticleSystem.Update` takes the bounce flag and the system's `borders` area explicitly. The source passes the area to `borders(bool)`, which reads the window bounds.
- The `size_t` conversion assumes a 64-bit target.
- Uninitialised fields are left unconstrained. These are the tapper's tempo and the system's borders and limit.
- Tapping.BpmTapper.Update treats a zero tempo as an infinite beat period, as IEEE float division does. The model does not say what C++ leaves undefined.
- The `ParticleCluster()` and `TouchPoint()` default constructors are not modelled. The first is declared but never defined. The second starts with an empty line and a black colour, and leaves the time of death uninitialised.
- The re-randomising of particle and flocking properties on a very strong beat is not modelled. The thresholds and colour a spawn uses are inputs.
- The timer is modelled as running or stopped. Its reading is passed to `update` as the elapsed seconds.
- Touch trail times are reals. The source stores `now + 2` in a `float` and loses precision.
