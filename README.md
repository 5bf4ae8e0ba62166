# brownian, modelled in Dafny

This project models the core of the `brownian` TypeScript library, a simulator of particles moving by Brownian motion on the plane. The model covers the following parts:

- **`Simulation`** (module `Engine`, class `Simulation`):
  - The class holds the particles and the `running` / `stopped` flags.
  - The constructor builds the particles through the factory. `addParticle` appends one particle; `stop`, `pause` and `resume` flip the flags.
  - `run()` loops over the steps. For every particle in order it:
    - resolves the diffusion coefficient `D`, either the number itself or the callback applied to the particle and the time `i * step_size`;
    - draws `dx` and `dy` from a normal distribution with variance `2 * D * step_size`;
    - moves the particle in place and sets `distance_moved = sqrt(dx² + dy²)`;
    - adds that distance to `total_distance_moved` and sets `velocity = distance_moved / step_size`;
    - pushes a copy of the particle into the step's snapshot.
  - `run()` returns the snapshots and the step start times.
  - `Run` and `MoveParticles` are proved against the specification functions `States`, `Path`, `Times` and `StepAll`. Module `EngineProperties` proves what those functions promise.
- **The particle factory** (module `Particles`): `createParticle` and `createMultipleParticles`.
- **`rand(a, b)`** (module `Random`): one unsigned 32-bit word, scaled and floored.
- **The `brownian` function of lib/index.ts** (module `Walk`): a loop that starts at a point and moves one unit at a time in the direction of an angle drawn with `rand(0, 2π)`.
- **The unit tables** `setDistance`, `setTime` and `setVelocity` (module `Units`). Each returns the conversion factors for a unit name and throws on any other name.

Things outside the model are parameters:

- The normal generator `randNormal` is an oracle, `Sampler`. It gives the value of each draw, identified by its mean, variance, step, particle index and axis.
- `Math.sqrt` is a parameter. Lemmas that need its meaning assume `IsSqrt`.
- `Math.cos`, `Math.sin` and `Math.PI` are the parameter `Trig`. The unit-step lemma assumes `Pythagorean`.
- `crypto.getRandomValues` is a parameter: the drawn word, a `Uint32`.

JavaScript numbers are modelled as `real`.

Where the code and the library's own description disagree, the model follows the code:

- `run()` never looks at `running` or `stopped`. A stopped simulation runs in full (`StoppedSimulationStillRuns`).
- `resume()` only sets `running`, even after `stop()` (`ResumeAfterStop`).
- A second `run()` starts its step counter and times at 0 again, from wherever the first run left the particles (`SecondRunContinues`).
- The global diffusion coefficient, gravity, temperature and viscosity are accepted as options but never read.
- `createParticle` validates nothing. It does not copy `z` or `mass` (`CreateParticleForgetsZAndMass`).
- `rand(a, b)` is guaranteed to stay within `[a, b]` when `b - a` is a non-negative whole number (`RandInclusive`). With a fractional width it can exceed `b`: `rand(0.01, 0.1)` returns 1.01 for one word (`RandOvershootsFractionalRange`).
- The walk's angle is a whole number from 0 to 7 and can exceed 2π (`ThetaIsWholeUpToSeven`, `ThetaCanExceedTwoPi`).
- Five units in the velocity table do not have 1 as their own entry (`VelocityOwnEntry`).

## Model

| member | source | states |
|---|---|---|
| Random.Normalize | lib/utils/random.utils.ts:9 | the word divided by 2^32 lies in [0, 1), never reaching 1 although the comment says [0, 1]; it is 0 exactly for the word 0 |
| Random.Scaled | lib/utils/random.utils.ts:12 | the normalized word times a non-negative width is non-negative, and strictly below a positive width |
| Random.Rand | lib/utils/random.utils.ts:4-14 | `rand(a, b)` is `a` plus a whole number, and is at least `a` whenever `b - a + 1` is not negative |
| Random.RandOffsetIsFlooredScale | lib/utils/random.utils.ts:12 | the offset from `a` is the scaled word rounded down: within 1 below it |
| Random.RandInclusive | lib/utils/random.utils.ts:1-14 | when `b - a` is a non-negative whole number the result lies in the inclusive range [a, b] the doc comment promises |
| Random.RandReachesEveryValue | lib/utils/random.utils.ts:6-12 | for a whole range no wider than 2^32 values, every value a, a+1, ..., b is produced by some word |
| Random.SmallestWordReaching | lib/utils/random.utils.ts:9-12 | returns a word whose scaled value floors to `k`, and every smaller word floors below `k`: it is the smallest word giving `k` |
| Random.RandOfZeroWord | lib/utils/random.utils.ts:6-12 | the word 0 yields exactly `a` |
| Random.RandOvershootsFractionalRange | lib/utils/random.utils.ts:1-14 | `rand(0.01, 0.1)` returns 1.01 for the word 4000000000, above the upper bound the doc comment promises |
| Particles.CreateParticle | lib/factories/particle.factory.ts:10-19 | the new particle has the given x, y and coefficient, zero velocity and distances, and no `z` or `mass` |
| Particles.CreateParticleForgetsZAndMass | lib/factories/particle.factory.ts:10-19 | two creation records give equal particles if and only if they agree on x, y and coefficient |
| Particles.CreateParticleRoundTrip | lib/factories/particle.factory.ts:10-19 | a particle at rest without `z` and `mass` is rebuilt exactly from its own fields |
| Particles.CreateMultipleParticles | lib/factories/particle.factory.ts:25-30 | `quantity` particles (none for a negative quantity), each equal to `createParticle(params)`; fails with `Invalid array length` exactly when `quantity` is 2^32 or more, where `Array.from` throws a `RangeError` |
| Engine.InitialParticles | lib/core/simulation.ts:21-27 | no particles when the option is absent, otherwise one created particle per configured one, in order |
| EngineProperties.ConstantCoefficientFixedVariance | lib/core/simulation.ts:73-80 | a particle whose coefficient is a number asks for the same variance `2 * D * step_size` in every step of a run, since no step replaces its coefficient |
| Engine.StepParticle | lib/core/simulation.ts:62-105 | one particle's step adds the distance moved to the total, sets a velocity that times the step size gives the distance, and keeps the coefficient, `z` and `mass` |
| Engine.States | lib/core/simulation.ts:51-113 | the particles after `n` steps, one `StepAll` per step; the number of particles never changes |
| Engine.RunOutput | lib/core/simulation.ts:115-118 | the returned object holds one snapshot and one time per loop iteration, and each snapshot one entry per particle |
| Engine.StepAll | lib/core/simulation.ts:61-109 | one step keeps the number and the order of the particles and moves each by its own draws |
| Engine.Path | lib/core/simulation.ts:51-113 | `n` snapshots, snapshot `i` being the particles after step `i` |
| Engine.Times | lib/core/simulation.ts:51-56 | `n` times, time `i` being `i * step_size` |
| Engine.Simulation.constructor | lib/core/simulation.ts:16-19 | stores the options, leaves both flags false, and builds the initial particles |
| Engine.Simulation.InitParticles | lib/core/simulation.ts:21-27 | the particles become the configured ones through the factory, or none |
| Engine.Simulation.AddParticle | lib/core/simulation.ts:29-31 | appends exactly one created particle and keeps the earlier ones |
| Engine.Simulation.Stop | lib/core/simulation.ts:33-36 | sets `stopped` and clears `running` |
| Engine.Simulation.Pause | lib/core/simulation.ts:38-40 | clears `running` and leaves `stopped` as it was |
| Engine.Simulation.Resume | lib/core/simulation.ts:42-44 | sets `running` and leaves `stopped` as it was |
| Engine.Simulation.Run | lib/core/simulation.ts:46-119 | the particles end in the state after all steps, and the output is the specification's snapshots and times from the starting particles |
| Engine.Simulation.MoveParticles | lib/core/simulation.ts:59-109 | the body of one step: every particle moved in place in order, and the snapshot equals the new particles |
| EngineProperties.StepParticleMoves | lib/core/simulation.ts:83-105 | x and y move by the two draws; the distance moved is a non-negative root of dx² + dy²; the total grows by it; velocity times step size is the distance; coefficient, `z` and `mass` are unchanged |
| EngineProperties.DrawsUseCoefficient | lib/core/simulation.ts:73-84 | both draws ask for mean 0 and variance 2·D·step_size, with D the constant or the callback applied to the particle and the time |
| EngineProperties.RunShape | lib/core/simulation.ts:51-118 | a run returns one time and one snapshot per step (none for a negative count), `times[i] = i * step_size`, and each snapshot has one entry per particle |
| EngineProperties.SnapshotFollowsPrevious | lib/core/simulation.ts:61-112 | entry k of snapshot i is particle k moved by step i from entry k of the previous snapshot (or from the start) |
| EngineProperties.StatesKeepParticleOrder | lib/core/simulation.ts:61-105 | after any number of steps entry k still carries particle k's coefficient, `z` and `mass` |
| EngineProperties.SnapshotsKeepParticleOrder | lib/core/simulation.ts:59-112 | every snapshot lists the particles in the order of `particles` |
| EngineProperties.TotalNeverDecreases | lib/core/simulation.ts:95-99 | a particle's `total_distance_moved` never decreases from one step to a later one |
| EngineProperties.TotalIsStartPlusRecordedDistances | lib/core/simulation.ts:95-112 | after n steps the total is the starting total plus the distances recorded in the n snapshots |
| EngineProperties.SnapshotsAreFrozen | lib/core/simulation.ts:108-112 | later steps never alter earlier snapshots: the first n snapshots of a longer run are those of the n-step run |
| EngineProperties.SecondRunContinues | lib/core/simulation.ts:46-119 | a second run restarts its times at 0, continues from the first run's last snapshot, and the totals add up over both runs |
| EngineProperties.ResumeAfterStop | lib/core/simulation.ts:33-44 | after `stop()` then `resume()` both `running` and `stopped` are set |
| EngineProperties.StoppedSimulationStillRuns | lib/core/simulation.ts:46-51 | `run()` on a stopped simulation returns the full output of a fresh one |
| Walk.Theta | lib/index.ts:19 | the angle `rand(0, 2π)` is a whole number, and not negative |
| Walk.Position | lib/index.ts:17-24 | the position after `i` moves is a pair `[x, y]` |
| Walk.Positions | lib/index.ts:15-24 | the path after n moves has n + 1 points, point i being the position after i moves |
| Walk.Brownian | lib/index.ts:10-28 | the returned path is the start followed by one point per loop iteration |
| Walk.PathStartsAtStart | lib/index.ts:13-15 | the first point is `[start_x, start_y]` |
| Walk.PathLength | lib/index.ts:15-24 | the path has `steps` points when `steps >= 1` and one otherwise, each a pair |
| Walk.PathStep | lib/index.ts:19-24 | point i is point i - 1 plus (cos θᵢ, sin θᵢ), with θᵢ the angle drawn in iteration i |
| Walk.UnitSteps | lib/index.ts:21-22 | given cos² + sin² = 1, consecutive points are exactly one unit apart, whatever `step_size` says |
| Walk.ThetaIsWholeUpToSeven | lib/index.ts:18-19 | the angle is a whole number from 0 to 7, not an arbitrary angle in [0, 2π) |
| Walk.ThetaCanExceedTwoPi | lib/index.ts:18-19 | the word 4200000000 gives the angle 7, which exceeds 2π |
| Walk.PathsGrowByAppending | lib/index.ts:17-25 | later iterations only append: the path of n moves is a prefix of the path of m ≥ n moves |
| Units.DistanceFactors | lib/config/set-si.config.ts:11-29 | the distance table of a unit has 1 as that unit's own entry |
| Units.TimeFactors | lib/config/set-si.config.ts:40-94 | the time table of a unit has 1 as that unit's own entry |
| Units.VelocityFactors | lib/config/set-si.config.ts:105-483 | the table returned for each velocity unit; every one of its factors is positive |
| Units.SetDistance | lib/config/set-si.config.ts:10-33 | a listed unit name yields its table; any other string yields the error `Invalid distance unit` |
| Units.SetTime | lib/config/set-si.config.ts:39-98 | a listed unit name yields its table; any other string yields the error `Invalid time unit` |
| Units.SetVelocity | lib/config/set-si.config.ts:104-487 | a listed unit name yields its table; any other string yields the error `Invalid velocity unit` |
| Units.VelocityUnitNamed | lib/config/set-si.config.ts:105-483 | a name is read as a unit only when it is that unit's label |
| Units.VelocityUnitNamesAreDistinct | lib/config/set-si.config.ts:106-463 | no two velocity labels are equal, so every label selects one table |
| Units.DistanceUnitNamed | lib/config/set-si.config.ts:11-32 | a name is read as a distance unit only when it is that unit's label |
| Units.TimeUnitNamed | lib/config/set-si.config.ts:40-97 | a name is read as a time unit only when it is that unit's label |
| Units.DistanceUnitNameRoundTrip | lib/config/set-si.config.ts:12-24 | every distance unit's label is read back as that unit |
| Units.TimeUnitNameRoundTrip | lib/config/set-si.config.ts:41-86 | every time unit's label is read back as that unit |
| Units.VelocityUnitNameRoundTrip | lib/config/set-si.config.ts:106-463 | every velocity unit's label is read back as that unit |
| Units.DistanceUnitNamesAreDistinct | lib/config/set-si.config.ts:12-24 | no two distance labels are equal |
| Units.TimeUnitNamesAreDistinct | lib/config/set-si.config.ts:41-86 | no two time labels are equal |
| Units.DistanceFactorsAreReciprocal | lib/config/set-si.config.ts:12-29 | the factor from u to v times the factor from v to u is exactly 1 |
| Units.DistanceFactorsCompose | lib/config/set-si.config.ts:12-29 | converting from u to w equals converting from u to v and then from v to w |
| Units.DecimalTimeFactorsAreReciprocal | lib/config/set-si.config.ts:41-76 | among nanoseconds, microseconds, milliseconds and seconds the factors are exact reciprocals |
| Units.CoarseToFineTimeFactorsCompose | lib/config/set-si.config.ts:41-94 | factors from a coarser to a finer unit compose exactly through any unit in between |
| Units.MinuteFactorsAreRounded | lib/config/set-si.config.ts:41-85 | the minute factors are rounded decimals: seconds↔minutes multiply to less than 1, nanoseconds↔minutes to more |
| Units.VelocityOwnEntry | lib/config/set-si.config.ts:104-483 | the own entry is 1 for thirteen units, but 100, 0.006, 1000, 10 and 0.006 for centimeters_per_second, meters_per_millisecond, meters_per_second, milimeters_per_microsecond and milimeters_per_millisecond |

## Left out

- `randNormal` is not defined in the code that is modelled. Its draws are an oracle, and nothing is claimed about their distribution.
- `crypto.getRandomValues` is a foreign call. The drawn word is a parameter of `Rand`, and the walk takes one word per loop iteration.
- `Math.sqrt`, `Math.cos`, `Math.sin` and `Math.PI` are parameters. `IsSqrt` and `Pythagorean` state the only facts the lemmas use.
- IEEE-754 rounding is not modelled: every number is an exact real. The tables' literals are exact decimals, so `0.016666666666666666 × 60` is not 1 (`MinuteFactorsAreRounded`).
- Engine.Simulation.Run: requires a non-zero `step_size`. With a zero step size the code divides by zero, and the model does not represent `Infinity` or `NaN`.
- Engine.Simulation.MoveParticles: requires a non-zero `step_size`, for the same reason.
- Engine.StepParticle: requires a non-zero `step_size`, for the same reason.
- Engine.StepAll: requires a non-zero `step_size`, for the same reason.
- Engine.States: requires a non-zero `step_size`, for the same reason.
- Engine.Path: requires a non-zero `step_size`, for the same reason.
- Engine.RunOutput: requires a non-zero `step_size`, for the same reason.
- The diffusion callback receives a `ParticleView`: the particle as it stands before the step, without its coefficient field. A callback in the code receives the live particle object and could mutate it; the model's callbacks cannot change any particle.
- Snapshots are values, so the aliasing of particle objects is not modelled. The code also pushes copies, so nothing observable is lost.
- `steps` and `quantity` are integers. A fractional count, which `for` and `Array.from` would round up and down respectively, is not modelled.
- `run()` is modelled as the synchronous method the code has. The `Promise` in `SimulationInterface` and any yield or resumption between steps are not modelled.
- `global_diffusion_coefficient`, `gravity`, `temperature` and `viscosity` are never read by lib/core/simulation.ts, and the step never moves `z`. The model's options carry them, and nothing reads them.
- Walk.Brownian: the `step_size` and `distance` options are carried but, as in the code, not read.
- The particle validation the factory tests expect (positive mass, numeric coordinates) is not implemented by `createParticle`, so it is not modelled.
- The call to `brownian` in the index tests uses an options object and a `.run()` that `lib/index.ts` does not have. That test is not modelled.
- `BrownianOutput.total_distance` is declared but never produced, so `BrownianOutput` holds only the path.
- lib/interfaces/distance.interface.ts and lib/interfaces/velocity.interface.ts are not part of this model. The unit names are the labels the three switches list.
