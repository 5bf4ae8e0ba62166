/** The particle records of lib/interfaces/particle.interface.ts and the
    factory of lib/factories/particle.factory.ts. */
module Particles {
  import opened Wrappers

  /** What a diffusion callback sees of a particle: every field except the
      coefficient itself. */
  datatype ParticleView = ParticleView(
    x: real,
    y: real,
    z: Option<real>,
    velocity: real,
    total_distance_moved: real,
    distance_moved: real,
    mass: Option<real>)

  /** `number | DiffusionFunction`: a constant, or a callback on the particle
      and the elapsed simulation time. */
  datatype DiffusionCoefficient =
    | Constant(value: real)
    | Callback(f: (ParticleView, real) -> real)

  /** A particle record. `z` and `mass` are `None` where the object has no
      such property at run time (`undefined`). */
  datatype Particle = Particle(
    x: real,
    y: real,
    z: Option<real>,
    velocity: real,
    diffusion_coefficient: DiffusionCoefficient,
    total_distance_moved: real,
    distance_moved: real,
    mass: Option<real>)

  /** `ParticleCreation`: a particle without its three derived fields. */
  datatype ParticleCreation = ParticleCreation(
    x: real,
    y: real,
    z: Option<real>,
    diffusion_coefficient: DiffusionCoefficient,
    mass: real)

  function View(p: Particle): ParticleView
  {
    ParticleView(p.x, p.y, p.z, p.velocity, p.total_distance_moved, p.distance_moved, p.mass)
  }

  /** A particle that has not moved yet. */
  predicate AtRest(p: Particle)
  {
    p.velocity == 0.0 && p.total_distance_moved == 0.0 && p.distance_moved == 0.0
  }

  /** `createParticle`: a particle at rest at the given position with the given
      coefficient. No field is validated, and `z` and `mass` are not copied. */
  function CreateParticle(params: ParticleCreation): (p: Particle)
    ensures AtRest(p)
    ensures p.x == params.x && p.y == params.y
    ensures p.diffusion_coefficient == params.diffusion_coefficient
    ensures p.z == None && p.mass == None
  {
    Particle(
      x := params.x,
      y := params.y,
      z := None,
      velocity := 0.0,
      diffusion_coefficient := params.diffusion_coefficient,
      total_distance_moved := 0.0,
      distance_moved := 0.0,
      mass := None)
  }

  /** The creation parameters a particle could have come from, given a mass. */
  function CreationOf(p: Particle, mass: real): (c: ParticleCreation)
  {
    ParticleCreation(p.x, p.y, p.z, p.diffusion_coefficient, mass)
  }

  /** Two creation records give the same particle exactly when they agree on
      position and coefficient: `z` and `mass` have no effect. */
  lemma CreateParticleForgetsZAndMass(c1: ParticleCreation, c2: ParticleCreation)
    ensures CreateParticle(c1) == CreateParticle(c2)
      <==> c1.x == c2.x && c1.y == c2.y && c1.diffusion_coefficient == c2.diffusion_coefficient
  {
  }

  /** Round trip: a particle at rest without `z` and `mass` is rebuilt exactly
      from its own fields, whatever mass is supplied. */
  lemma CreateParticleRoundTrip(p: Particle, mass: real)
    requires AtRest(p) && p.z == None && p.mass == None
    ensures CreateParticle(CreationOf(p, mass)) == p
  {
  }

  /** Lengths an `Array` can have: below 2^32. */
  const ARRAY_LENGTH_LIMIT: int := 0x1_0000_0000

  /** `createMultipleParticles(params, quantity)`: `Array.from` with a length of
      `quantity` (none for a negative quantity), each element built by
      `createParticle(params)`. `Array.from` builds its result through the
      `Array` constructor, which throws a `RangeError` for a length of 2^32
      or more. */
  function CreateMultipleParticles(params: ParticleCreation, quantity: int): (r: Result<seq<Particle>, string>)
    ensures r.Failure? <==> quantity >= ARRAY_LENGTH_LIMIT
    ensures r.Failure? ==> r.error == "Invalid array length"
    ensures r.Success? ==> |r.value| == if quantity < 0 then 0 else quantity
    ensures r.Success? ==> forall i :: 0 <= i < |r.value| ==> r.value[i] == CreateParticle(params)
  {
    if quantity >= ARRAY_LENGTH_LIMIT then Failure("Invalid array length")
    else Success(seq(if quantity < 0 then 0 else quantity, _ => CreateParticle(params)))
  }
}
