/** The stepping engine of lib/core/simulation.ts: the `Simulation` class,
    its control flags, and the synchronous `run()` that moves every particle
    once per step and records a snapshot of all of them. */
module Engine {
  import opened Wrappers
  import opened Particles

  /** `{x, y, z}` of lib/interfaces/force.interface.ts. */
  datatype Gravity = Gravity(x: real, y: real, z: real)

  /** `number | DiffusionFunction | DiffusionEquation`. */
  datatype GlobalCoefficient =
    | Coefficient(coefficient: DiffusionCoefficient)
    | Equation(name: string)

  datatype SimulationOptions = SimulationOptions(
    steps: int,
    step_size: real,
    particles: Option<seq<ParticleCreation>>,
    global_diffusion_coefficient: Option<GlobalCoefficient>,
    gravity: Option<Gravity>,
    temperature: Option<real>,
    viscosity: Option<real>)

  /** `path[i]` is the snapshot of all particles after step `i`; `times[i]`
      is the time at which step `i` started. */
  datatype SimulationOutput = SimulationOutput(path: seq<seq<Particle>>, times: seq<real>)

  datatype Axis = AxisX | AxisY

  /** One call `randNormal(mean, variance)`: the one for `axis` of particle
      number `particle` in step `step`. */
  datatype Draw = Draw(mean: real, variance: real, step: nat, particle: nat, axis: Axis)

  /** The normal generator as an oracle: the value each call returns. */
  type Sampler = Draw -> real

  /** What `run()` takes from outside the simulation: the step size, the
      normal draws and `Math.sqrt`. */
  datatype Integrator = Integrator(step_size: real, sample: Sampler, sqrt: real -> real)

  /** `Math.sqrt` on the non-negative reals. */
  ghost predicate IsSqrt(sqrt: real -> real)
  {
    forall v :: v >= 0.0 ==> sqrt(v) >= 0.0 && sqrt(v) * sqrt(v) == v
  }

  ghost predicate WellFormed(ig: Integrator)
  {
    ig.step_size != 0.0 && IsSqrt(ig.sqrt)
  }

  /** `i * step_size`. */
  function Time(i: nat, step_size: real): real
  {
    i as real * step_size
  }

  /** The coefficient `D` of a particle at time `t`: the constant, or the
      callback applied to the particle and `t`. */
  function Resolve(p: Particle, t: real): real
  {
    match p.diffusion_coefficient
    case Constant(d) => d
    case Callback(f) => f(View(p), t)
  }

  /** `2 * D * step_size` for particle `p` in step `i`. */
  function Variance(p: Particle, i: nat, step_size: real): real
  {
    2.0 * Resolve(p, Time(i, step_size)) * step_size
  }

  /** The draw for one axis of particle `k` in step `i`. */
  function Displacement(p: Particle, i: nat, k: nat, axis: Axis, ig: Integrator): real
  {
    ig.sample(Draw(0.0, Variance(p, i, ig.step_size), i, k, axis))
  }

  /** `dx ** 2 + dy ** 2`. */
  function SquaredLength(dx: real, dy: real): real
  {
    dx * dx + dy * dy
  }

  /** `distance_moved / step_size`. */
  function Speed(distance_moved: real, step_size: real): real
    requires step_size != 0.0
  {
    distance_moved / step_size
  }

  /** Particle `k` after step `i`, starting from `p`. */
  function StepParticle(p: Particle, i: nat, k: nat, ig: Integrator): (q: Particle)
    requires ig.step_size != 0.0
    ensures q.total_distance_moved == p.total_distance_moved + q.distance_moved
    ensures q.velocity * ig.step_size == q.distance_moved
    ensures q.diffusion_coefficient == p.diffusion_coefficient && q.z == p.z && q.mass == p.mass
  {
    var dx := Displacement(p, i, k, AxisX, ig);
    var dy := Displacement(p, i, k, AxisY, ig);
    var d := ig.sqrt(SquaredLength(dx, dy));
    p.(x := p.x + dx, y := p.y + dy,
       distance_moved := d,
       total_distance_moved := p.total_distance_moved + d,
       velocity := Speed(d, ig.step_size))
  }

  /** All particles after step `i`, in their order. */
  function StepAll(ps: seq<Particle>, i: nat, ig: Integrator): (qs: seq<Particle>)
    requires ig.step_size != 0.0
    ensures |qs| == |ps|
    ensures forall k :: 0 <= k < |ps| ==> qs[k] == StepParticle(ps[k], i, k, ig)
  {
    seq(|ps|, k requires 0 <= k < |ps| => StepParticle(ps[k], i, k, ig))
  }

  /** The particles after the first `n` steps. */
  function States(ps: seq<Particle>, n: nat, ig: Integrator): (qs: seq<Particle>)
    requires ig.step_size != 0.0
    ensures |qs| == |ps|
    decreases n
  {
    if n == 0 then ps else StepAll(States(ps, n - 1, ig), n - 1, ig)
  }

  /** The snapshots recorded by the first `n` steps: snapshot `i` is the
      state right after step `i`. */
  function Path(ps: seq<Particle>, n: nat, ig: Integrator): (path: seq<seq<Particle>>)
    requires ig.step_size != 0.0
    ensures |path| == n
    ensures forall i :: 0 <= i < n ==> path[i] == States(ps, i + 1, ig)
    decreases n
  {
    if n == 0 then [] else Path(ps, n - 1, ig) + [States(ps, n, ig)]
  }

  /** The times recorded by the first `n` steps. */
  function Times(n: nat, step_size: real): (times: seq<real>)
    ensures |times| == n
    ensures forall i :: 0 <= i < n ==> times[i] == i as real * step_size
    decreases n
  {
    if n == 0 then [] else Times(n - 1, step_size) + [Time(n - 1, step_size)]
  }

  /** How many times `for (let i = 0; i < steps; i++)` runs its body. */
  function Iterations(steps: int): nat
  {
    if steps < 0 then 0 else steps
  }

  /** What `run()` returns when it starts from the particles `ps`. */
  function RunOutput(ps: seq<Particle>, steps: int, ig: Integrator): (output: SimulationOutput)
    requires ig.step_size != 0.0
    ensures |output.path| == |output.times| == Iterations(steps)
    ensures forall i :: 0 <= i < |output.path| ==> |output.path[i]| == |ps|
  {
    SimulationOutput(Path(ps, Iterations(steps), ig), Times(Iterations(steps), ig.step_size))
  }

  /** How the state, the snapshots and the times grow by one step. */
  lemma OneMoreStep(ps: seq<Particle>, i: nat, ig: Integrator)
    requires ig.step_size != 0.0
    ensures States(ps, i + 1, ig) == StepAll(States(ps, i, ig), i, ig)
    ensures Path(ps, i + 1, ig) == Path(ps, i, ig) + [States(ps, i + 1, ig)]
    ensures Times(i + 1, ig.step_size) == Times(i, ig.step_size) + [Time(i, ig.step_size)]
  {
  }

  /** `initParticles()`: the configured particles through the factory, or
      none when the option is absent. */
  function InitialParticles(options: SimulationOptions): (ps: seq<Particle>)
    ensures options.particles.None? ==> ps == []
    ensures options.particles.Some? ==>
      && |ps| == |options.particles.value|
      && forall i :: 0 <= i < |ps| ==> ps[i] == CreateParticle(options.particles.value[i])
  {
    match options.particles
    case None => []
    case Some(cs) => seq(|cs|, i requires 0 <= i < |cs| => CreateParticle(cs[i]))
  }

  class Simulation {
    var running: bool
    var stopped: bool
    var particles: seq<Particle>
    var options: SimulationOptions

    constructor (options: SimulationOptions)
      ensures this.options == options
      ensures !running && !stopped
      ensures particles == InitialParticles(options)
    {
      this.options := options;
      running := false;
      stopped := false;
      particles := [];
      new;
      InitParticles();
    }

    method InitParticles()
      modifies this`particles
      ensures particles == InitialParticles(options)
    {
      match options.particles {
        case None =>
          particles := [];
        case Some(cs) =>
          var ps: seq<Particle> := [];
          for i := 0 to |cs|
            invariant |ps| == i
            invariant forall j :: 0 <= j < i ==> ps[j] == CreateParticle(cs[j])
          {
            ps := ps + [CreateParticle(cs[i])];
          }
          particles := ps;
      }
    }

    /** `addParticle`: appends one freshly created particle. */
    method AddParticle(params: ParticleCreation)
      modifies this`particles
      ensures particles == old(particles) + [CreateParticle(params)]
    {
      particles := particles + [CreateParticle(params)];
    }

    method Stop()
      modifies this`running, this`stopped
      ensures stopped && !running
    {
      stopped := true;
      running := false;
    }

    method Pause()
      modifies this`running
      ensures !running && stopped == old(stopped)
    {
      running := false;
    }

    /** Sets the flag only: nothing looks at `stopped`, so this also
        "resumes" a stopped simulation. */
    method Resume()
      modifies this`running
      ensures running && stopped == old(stopped)
    {
      running := true;
    }

    /** `run()`: for each step, records the time and then moves each
        particle in place by its two draws, updating its distances and
        velocity, and pushes a copy of it into the step's snapshot. The
        flags and all options other than `steps` and `step_size` are not
        looked at. */
    method Run(sample: Sampler, sqrt: real -> real) returns (output: SimulationOutput)
      requires options.step_size != 0.0
      modifies this`particles
      ensures particles
        == States(old(particles), Iterations(options.steps), Integrator(options.step_size, sample, sqrt))
      ensures output == RunOutput(old(particles), options.steps, Integrator(options.step_size, sample, sqrt))
    {
      var steps := options.steps;
      var step_size := options.step_size;
      ghost var ig := Integrator(step_size, sample, sqrt);
      ghost var start := particles;
      var local_particles: seq<seq<Particle>> := [];
      var times: seq<real> := [];
      var i: nat := 0;
      while i < steps
        invariant i <= Iterations(steps)
        invariant particles == States(start, i, ig)
        invariant local_particles == Path(start, i, ig)
        invariant times == Times(i, step_size)
      {
        var time := Time(i, step_size);
        times := times + [time];
        var step_particles := MoveParticles(i, sample, sqrt);
        local_particles := local_particles + [step_particles];
        OneMoreStep(start, i, ig);
        i := i + 1;
      }
      assert i == Iterations(steps);
      output := SimulationOutput(local_particles, times);
    }

    /** The body of one step of `run()`: every particle, in order, is moved
        in place and a copy of it is pushed into the returned snapshot. */
    method MoveParticles(i: nat, sample: Sampler, sqrt: real -> real) returns (step_particles: seq<Particle>)
      requires options.step_size != 0.0
      modifies this`particles
      ensures particles == StepAll(old(particles), i, Integrator(options.step_size, sample, sqrt))
      ensures step_particles == particles
    {
      var step_size := options.step_size;
      var time := Time(i, step_size);
      ghost var ig := Integrator(step_size, sample, sqrt);
      ghost var before := particles;
      step_particles := [];
      var k := 0;
      while k < |particles|
        invariant 0 <= k <= |particles| == |before|
        invariant forall j :: 0 <= j < k ==> particles[j] == StepParticle(before[j], i, j, ig)
        invariant forall j :: k <= j < |particles| ==> particles[j] == before[j]
        invariant step_particles == particles[..k]
      {
        var particle := particles[k];
        var D := Resolve(particle, time);
        var variance := 2.0 * D * step_size;
        assert variance == Variance(before[k], i, step_size);
        var dx := sample(Draw(0.0, variance, i, k, AxisX));
        var dy := sample(Draw(0.0, variance, i, k, AxisY));
        var x := particle.x + dx;
        var y := particle.y + dy;
        var distance_moved := sqrt(SquaredLength(dx, dy));
        var velocity := Speed(distance_moved, step_size);
        particle := particle.(
          x := x,
          y := y,
          distance_moved := distance_moved,
          total_distance_moved := particle.total_distance_moved + distance_moved,
          velocity := velocity);
        particles := particles[k := particle];
        step_particles := step_particles + [particle];
        k := k + 1;
      }
    }
  }
}
