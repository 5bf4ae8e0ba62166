/** What `run()` of lib/core/simulation.ts guarantees, stated over the
    specification functions of module Engine. */
module EngineProperties {
  import opened Particles
  import opened Engine

  /** Non-negative squares sum to a non-negative value. */
  lemma SquaredLengthNonNegative(dx: real, dy: real)
    ensures SquaredLength(dx, dy) >= 0.0
  {
    assert dx * dx >= 0.0;
    assert dy * dy >= 0.0;
  }

  /** `(d / h) * h == d` for a non-zero `h`. */
  lemma SpeedTimesStep(d: real, h: real)
    requires h != 0.0
    ensures Speed(d, h) * h == d
  {
  }

  /** One particle, one step: the position moves by the two draws, the
      distance moved is the Euclidean length of that displacement (a
      non-negative root of `dx² + dy²`), the total grows by it, the
      velocity is it divided by the step size, and nothing else changes. */
  lemma StepParticleMoves(p: Particle, i: nat, k: nat, ig: Integrator)
    requires WellFormed(ig)
    ensures StepParticle(p, i, k, ig).x == p.x + Displacement(p, i, k, AxisX, ig)
    ensures StepParticle(p, i, k, ig).y == p.y + Displacement(p, i, k, AxisY, ig)
    ensures StepParticle(p, i, k, ig).distance_moved >= 0.0
    ensures StepParticle(p, i, k, ig).distance_moved * StepParticle(p, i, k, ig).distance_moved
      == SquaredLength(Displacement(p, i, k, AxisX, ig), Displacement(p, i, k, AxisY, ig))
    ensures StepParticle(p, i, k, ig).total_distance_moved
      == p.total_distance_moved + StepParticle(p, i, k, ig).distance_moved
    ensures StepParticle(p, i, k, ig).velocity * ig.step_size == StepParticle(p, i, k, ig).distance_moved
    ensures StepParticle(p, i, k, ig).diffusion_coefficient == p.diffusion_coefficient
    ensures StepParticle(p, i, k, ig).z == p.z && StepParticle(p, i, k, ig).mass == p.mass
  {
    var dx := Displacement(p, i, k, AxisX, ig);
    var dy := Displacement(p, i, k, AxisY, ig);
    SquaredLengthNonNegative(dx, dy);
    var d := ig.sqrt(SquaredLength(dx, dy));
    assert d >= 0.0 && d * d == SquaredLength(dx, dy);
    SpeedTimesStep(d, ig.step_size);
  }

  /** The draws of one particle ask for mean 0 and variance `2 * D * step_size`,
      where `D` is the constant, or the callback applied to the particle as it
      was before the step and to `i * step_size`. */
  lemma DrawsUseCoefficient(p: Particle, i: nat, k: nat, axis: Axis, ig: Integrator)
    ensures p.diffusion_coefficient.Constant? ==>
      Displacement(p, i, k, axis, ig)
        == ig.sample(Draw(0.0, 2.0 * p.diffusion_coefficient.value * ig.step_size, i, k, axis))
    ensures p.diffusion_coefficient.Callback? ==>
      Displacement(p, i, k, axis, ig)
        == ig.sample(Draw(0.0, 2.0 * p.diffusion_coefficient.f(View(p), Time(i, ig.step_size)) * ig.step_size, i, k, axis))
  {
    var v := Variance(p, i, ig.step_size);
    match p.diffusion_coefficient
    case Constant(d) =>
      assert Draw(0.0, v, i, k, axis) == Draw(0.0, 2.0 * p.diffusion_coefficient.value * ig.step_size, i, k, axis);
    case Callback(f) =>
      assert Draw(0.0, v, i, k, axis)
        == Draw(0.0, 2.0 * p.diffusion_coefficient.f(View(p), Time(i, ig.step_size)) * ig.step_size, i, k, axis);
  }

  /** `run()` returns one time and one snapshot per step (none for a negative
      step count), `times[i] == i * step_size`, and every snapshot holds one
      entry per particle. */
  lemma RunShape(ps: seq<Particle>, steps: int, ig: Integrator)
    requires ig.step_size != 0.0
    ensures |RunOutput(ps, steps, ig).path| == |RunOutput(ps, steps, ig).times| == Iterations(steps)
    ensures steps >= 0 ==> |RunOutput(ps, steps, ig).path| == steps
    ensures forall i :: 0 <= i < Iterations(steps) ==> RunOutput(ps, steps, ig).times[i] == i as real * ig.step_size
    ensures forall i :: 0 <= i < Iterations(steps) ==> |RunOutput(ps, steps, ig).path[i]| == |ps|
  {
  }

  /** The particles before step `i`: the starting ones, then each snapshot. */
  function Before(ps: seq<Particle>, path: seq<seq<Particle>>, i: nat): seq<Particle>
    requires i <= |path|
  {
    if i == 0 then ps else path[i - 1]
  }

  /** Entry `k` of snapshot `i` is particle `k` moved by step `i` from where
      the previous snapshot (or the start) left it. */
  lemma SnapshotFollowsPrevious(ps: seq<Particle>, n: nat, ig: Integrator, i: nat, k: nat)
    requires ig.step_size != 0.0 && i < n && k < |ps|
    ensures |Before(ps, Path(ps, n, ig), i)| == |ps| && |Path(ps, n, ig)[i]| == |ps|
    ensures Path(ps, n, ig)[i][k] == StepParticle(Before(ps, Path(ps, n, ig), i)[k], i, k, ig)
  {
    var path := Path(ps, n, ig);
    assert path[i] == States(ps, i + 1, ig);
    if i > 0 {
      assert path[i - 1] == States(ps, i, ig);
    }
  }

  /** Entry `k` of every state is the particle that started at position `k`:
      same coefficient, same `z` and `mass`. */
  lemma {:induction false} StatesKeepParticleOrder(ps: seq<Particle>, n: nat, ig: Integrator, k: nat)
    requires ig.step_size != 0.0 && k < |ps|
    ensures States(ps, n, ig)[k].diffusion_coefficient == ps[k].diffusion_coefficient
    ensures States(ps, n, ig)[k].z == ps[k].z && States(ps, n, ig)[k].mass == ps[k].mass
    decreases n
  {
    if n > 0 {
      StatesKeepParticleOrder(ps, n - 1, ig, k);
    }
  }

  /** A particle with a constant coefficient asks for the same variance
      `2 * D * step_size` in every step: its coefficient is never replaced. */
  lemma ConstantCoefficientFixedVariance(ps: seq<Particle>, n: nat, ig: Integrator, k: nat)
    requires ig.step_size != 0.0 && k < |ps| && ps[k].diffusion_coefficient.Constant?
    ensures |States(ps, n, ig)| == |ps|
    ensures Variance(States(ps, n, ig)[k], n, ig.step_size)
      == 2.0 * ps[k].diffusion_coefficient.value * ig.step_size
  {
    StatesKeepParticleOrder(ps, n, ig, k);
  }

  /** Snapshots are in particle order: entry `k` of every snapshot belongs to
      particle `k`. */
  lemma SnapshotsKeepParticleOrder(ps: seq<Particle>, n: nat, ig: Integrator, i: nat, k: nat)
    requires ig.step_size != 0.0 && i < n && k < |ps|
    ensures |Path(ps, n, ig)[i]| == |ps|
    ensures Path(ps, n, ig)[i][k].diffusion_coefficient == ps[k].diffusion_coefficient
    ensures Path(ps, n, ig)[i][k].z == ps[k].z && Path(ps, n, ig)[i][k].mass == ps[k].mass
  {
    StatesKeepParticleOrder(ps, i + 1, ig, k);
  }

  /** A particle's `total_distance_moved` never decreases from one step to a
      later one. */
  lemma {:induction false} TotalNeverDecreases(ps: seq<Particle>, ig: Integrator, k: nat, i: nat, j: nat)
    requires WellFormed(ig) && k < |ps| && i <= j
    ensures States(ps, i, ig)[k].total_distance_moved <= States(ps, j, ig)[k].total_distance_moved
    decreases j
  {
    if i < j {
      TotalNeverDecreases(ps, ig, k, i, j - 1);
      OneMoreStep(ps, j - 1, ig);
      StepParticleMoves(States(ps, j - 1, ig)[k], j - 1, k, ig);
    }
  }

  /** The sum of `path[i][k].distance_moved` over all snapshots. */
  function SumMoved(path: seq<seq<Particle>>, k: nat): real
    requires forall i :: 0 <= i < |path| ==> k < |path[i]|
  {
    if path == [] then 0.0
    else SumMoved(path[..|path| - 1], k) + path[|path| - 1][k].distance_moved
  }

  /** After `n` steps a particle's total is its starting total plus the
      distances recorded for it in the snapshots. */
  lemma {:induction false} TotalIsStartPlusRecordedDistances(ps: seq<Particle>, n: nat, ig: Integrator, k: nat)
    requires WellFormed(ig) && k < |ps|
    ensures forall i :: 0 <= i < n ==> k < |Path(ps, n, ig)[i]|
    ensures States(ps, n, ig)[k].total_distance_moved
      == ps[k].total_distance_moved + SumMoved(Path(ps, n, ig), k)
    decreases n
  {
    if n > 0 {
      TotalIsStartPlusRecordedDistances(ps, n - 1, ig, k);
      var path := Path(ps, n, ig);
      assert path[..n - 1] == Path(ps, n - 1, ig);
      StepParticleMoves(States(ps, n - 1, ig)[k], n - 1, k, ig);
    }
  }

  /** Later steps never change an earlier snapshot: the first `n` snapshots
      of a longer run are those of the shorter one. */
  lemma SnapshotsAreFrozen(ps: seq<Particle>, n: nat, m: nat, ig: Integrator)
    requires ig.step_size != 0.0 && n <= m
    ensures Path(ps, m, ig)[..n] == Path(ps, n, ig)
  {
  }

  /** A second `run()` on the same simulation starts from where the first
      left the particles: its first snapshot moves them on from the first
      run's last snapshot, its times start again at 0, and each total keeps
      growing across both runs. The two runs see different draws. */
  lemma SecondRunContinues(ps: seq<Particle>, steps: int, ig1: Integrator, ig2: Integrator, k: nat)
    requires WellFormed(ig1) && WellFormed(ig2) && ig1.step_size == ig2.step_size
    requires steps > 0 && k < |ps|
    ensures |States(ps, steps, ig1)| == |ps|
    ensures RunOutput(States(ps, steps, ig1), steps, ig2).times == RunOutput(ps, steps, ig1).times
    ensures RunOutput(States(ps, steps, ig1), steps, ig2).path[0][k]
      == StepParticle(RunOutput(ps, steps, ig1).path[steps - 1][k], 0, k, ig2)
    ensures States(States(ps, steps, ig1), steps, ig2)[k].total_distance_moved
      == ps[k].total_distance_moved
       + SumMoved(RunOutput(ps, steps, ig1).path, k)
       + SumMoved(RunOutput(States(ps, steps, ig1), steps, ig2).path, k)
  {
    var ps1 := States(ps, steps, ig1);
    TotalIsStartPlusRecordedDistances(ps, steps, ig1, k);
    TotalIsStartPlusRecordedDistances(ps1, steps, ig2, k);
    SnapshotFollowsPrevious(ps1, steps, ig2, 0, k);
  }

  /** `resume()` after `stop()` sets `running` again while `stopped` stays
      set: nothing ties the two flags together. */
  method ResumeAfterStop(options: SimulationOptions) returns (running: bool, stopped: bool)
    ensures running && stopped
  {
    var sim := new Simulation(options);
    sim.Stop();
    sim.Resume();
    running, stopped := sim.running, sim.stopped;
  }

  /** `run()` does not look at the flags: a stopped simulation produces
      the same output as a fresh one. */
  method StoppedSimulationStillRuns(options: SimulationOptions, sample: Sampler, sqrt: real -> real)
    returns (output: SimulationOutput)
    requires options.step_size != 0.0
    ensures output
      == RunOutput(InitialParticles(options), options.steps, Integrator(options.step_size, sample, sqrt))
  {
    var sim := new Simulation(options);
    sim.Stop();
    output := sim.Run(sample, sqrt);
  }
}
