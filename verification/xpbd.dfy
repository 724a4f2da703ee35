/** XPBD.js: the solver that steps a Config in place. */
module Solver {
  import opened Wrappers
  import opened Vectors
  import opened Particles
  import opened Stages
  import opened Configs
  import C = Constraints
  import Phases

  /** The inputs of a substep: the lists, the placed polygon vertices, the
      canvas, gravity, the time step h = dts·multiplier, dts², μ and the
      particle radius. */
  datatype Setup = Setup(
    particles: seq<Particle>, constraints: seq<C.DistanceConstraint>, volumeConstraints: seq<C.VolumeConstraint>,
    shapes: seq<seq<Vec>>, canvas: Option<Canvas>, gravity: Vec, h: real, dts2: real, mu: real, radius: real)

  /** Every particle a substep over s can touch. */
  function Touched(s: Setup): set<Particle>
  {
    Members(s.particles) + Endpoints(s.constraints) + VolumeMembers(s.volumeConstraints)
  }

  /** integrate over s: every listed particle, step h. */
  function Integrated(s: Setup, W: World): (r: World)
    requires Touched(s) <= W.Keys
    ensures r.Keys == W.Keys
  {
    ForEach(s.particles, IntegrateStep(s.gravity, s.h), W)
  }

  /** solveConstraints over s: the distance constraints in list order with
      compliance stiffness/dts², then the volume constraints in list order. */
  function Solved(lib: MathLib, volume: C.VolumeResponse, s: Setup, W: World): (r: World)
    requires Touched(s) <= W.Keys
    ensures r.Keys == W.Keys
  {
    VolumePass(s.volumeConstraints, volume, ConstraintPass(lib, s.constraints, s.dts2, W))
  }

  /** The per-particle part of handleCollisions over s: boundary, then
      polygons checked at positionX. */
  function Swept(lib: MathLib, contact: C.ContactResponse, s: Setup, W: World): (r: World)
    requires Touched(s) <= W.Keys
    ensures r.Keys == W.Keys
  {
    ForEach(s.particles, CollisionStep(lib, s.canvas, s.shapes, true, s.mu, contact), W)
  }

  /** checkParticleCollision over s: every pair i < j of the list, reach and
      gap 2·radius. */
  function Paired(lib: MathLib, s: Setup, W: World): (r: World)
    requires Touched(s) <= W.Keys
    ensures r.Keys == W.Keys
  {
    PairFold(lib, s.particles, UpperPairs(|s.particles|, |s.particles|), false, s.radius, W)
  }

  /** updateVelocities over s: every listed particle, step h. */
  function Restored(s: Setup, W: World): (r: World)
    requires Touched(s) <= W.Keys
    ensures r.Keys == W.Keys
  {
    ForEach(s.particles, ReconstructStep(s.h), W)
  }

  /** One substep of XPBD.update as a function of the world: integrate,
      solve constraints, handle collisions, update velocities. */
  ghost function Substep(lib: MathLib, contact: C.ContactResponse, volume: C.VolumeResponse, s: Setup, W: World): (r: World)
    requires Touched(s) <= W.Keys
    ensures r.Keys == W.Keys
  {
    Restored(s, Paired(lib, s, Swept(lib, contact, s, Solved(lib, volume, s, Integrated(s, W)))))
  }

  /** n substeps in a row. */
  ghost function Substeps(lib: MathLib, contact: C.ContactResponse, volume: C.VolumeResponse, s: Setup, n: nat, W: World): (r: World)
    requires Touched(s) <= W.Keys
    ensures r.Keys == W.Keys
  {
    if n == 0 then W else Substep(lib, contact, volume, s, Substeps(lib, contact, volume, s, n - 1, W))
  }

  /** One more substep after i of them. */
  lemma SubstepsNext(lib: MathLib, contact: C.ContactResponse, volume: C.VolumeResponse, s: Setup, i: nat, W: World,
                     before: World, after: World)
    requires Touched(s) <= W.Keys && Touched(s) <= before.Keys
    requires before == Substeps(lib, contact, volume, s, i, W)
    requires after == Substep(lib, contact, volume, s, before)
    ensures after == Substeps(lib, contact, volume, s, i + 1, W)
  {
  }

  class XPBD {
    const config: Config

    constructor (config: Config)
      ensures this.config == config
    {
      this.config := config;
    }

    /** Every particle a step can touch: the particle list and the particles
        of every distance and volume constraint. */
    ghost function Bodies(): set<Particle>
      reads config
    {
      Members(config.particles) + Endpoints(config.constraints) + VolumeMembers(config.volumeConstraints)
    }

    /** What a substep reads from the config, as a value. */
    ghost function Current(): Setup
      reads config, config.polygons
    {
      Setup(config.particles, config.constraints, config.volumeConstraints, Shapes(config.polygons), config.canvas,
            config.gravity, Mul(config.dts, config.multiplier), Mul(config.dts, config.dts), config.mu, config.radius)
    }

    /** update: exactly config.substeps substeps. */
    method Update(lib: MathLib, contact: C.ContactResponse, volume: C.VolumeResponse)
      modifies config.particles, Endpoints(config.constraints), VolumeMembers(config.volumeConstraints)
      ensures Snap(Bodies()) == Substeps(lib, contact, volume, Current(), config.substeps, old(Snap(Bodies())))
    {
      ghost var W0, S, setup := Snap(Bodies()), Bodies(), Current();
      assert Touched(setup) == S == W0.Keys;
      for i := 0 to config.substeps
        invariant Bodies() == S
        invariant Current() == setup
        invariant Snap(S) == Substeps(lib, contact, volume, setup, i, W0)
      {
        ghost var before := Snap(S);
        SubstepOnce(lib, contact, volume, setup, S);
        SubstepsNext(lib, contact, volume, setup, i, W0, before, Snap(S));
      }
    }

    /** The body of update's loop: the four phases in order. */
    method SubstepOnce(lib: MathLib, contact: C.ContactResponse, volume: C.VolumeResponse, ghost setup: Setup, ghost S: set<Particle>)
      requires Current() == setup && Bodies() == S
      modifies config.particles, Endpoints(config.constraints), VolumeMembers(config.volumeConstraints)
      ensures Current() == setup && Bodies() == S
      ensures Snap(S) == Substep(lib, contact, volume, setup, old(Snap(S)))
    {
      Integrate();
      SolveConstraints(lib, volume);
      HandleCollisions(lib, contact);
      UpdateVelocities();
    }

    /** integrate: every listed particle, with step dts·multiplier. */
    method Integrate()
      modifies config.particles
      ensures Bodies() == old(Bodies()) && Current() == old(Current())
      ensures Snap(Bodies()) == Integrated(Current(), old(Snap(Bodies())))
    {
      Phases.Integrate(config.particles, config.gravity, Mul(config.dts, config.multiplier), Bodies());
    }

    /** solveConstraints: every distance constraint in list order, with
        compliance stiffness/dts², then every volume constraint in list
        order. */
    method SolveConstraints(lib: MathLib, volume: C.VolumeResponse)
      modifies Endpoints(config.constraints), VolumeMembers(config.volumeConstraints)
      ensures Bodies() == old(Bodies()) && Current() == old(Current())
      ensures Snap(Bodies()) == Solved(lib, volume, Current(), old(Snap(Bodies())))
    {
      Phases.SolveConstraintLists(lib, config.constraints, Mul(config.dts, config.dts), config.volumeConstraints, volume, Bodies());
    }

    /** updateVelocities: every listed particle, with step dts·multiplier. */
    method UpdateVelocities()
      modifies config.particles
      ensures Bodies() == old(Bodies()) && Current() == old(Current())
      ensures Snap(Bodies()) == Restored(Current(), old(Snap(Bodies())))
    {
      Phases.UpdateVelocities(config.particles, Mul(config.dts, config.multiplier), Bodies());
    }

    /** handleCollisions: boundary then polygons for each particle in turn,
        then the pair pass. */
    method HandleCollisions(lib: MathLib, contact: C.ContactResponse)
      modifies config.particles
      ensures Bodies() == old(Bodies()) && Current() == old(Current())
      ensures Snap(Bodies()) == Paired(lib, Current(), Swept(lib, contact, Current(), old(Snap(Bodies()))))
    {
      Phases.CollisionSweep(lib, config.particles, config.canvas, config.polygons, Shapes(config.polygons), true, config.mu, contact, Bodies());
      CheckParticleCollision(lib);
    }

    /** boundaryCollision with the config's canvas and μ. */
    method BoundaryCollision(particle: Particle, contact: C.ContactResponse)
      modifies particle
      ensures particle.State() == BoundaryBody(config.canvas, config.mu, contact, particle, old(particle.State()))
    {
      Phases.BoundaryCollision(particle, config.canvas, config.mu, contact);
    }

    /** checkParticleCollision: every pair i < j, reach and gap 2·radius. */
    method CheckParticleCollision(lib: MathLib)
      modifies config.particles
      ensures Bodies() == old(Bodies()) && Current() == old(Current())
      ensures Snap(Bodies()) == Paired(lib, Current(), old(Snap(Bodies())))
    {
      Phases.PairCollisions(lib, config.particles, false, config.radius, Bodies());
    }

    /** checkPolygonCollision: containment checked at positionX. */
    method CheckPolygonCollision(lib: MathLib, particle: Particle, contact: C.ContactResponse)
      modifies particle
      ensures particle.State() == PolygonBody(lib, Shapes(config.polygons), true, config.mu, contact, particle.w,
                                              old(particle.State()), |config.polygons|)
    {
      Phases.PolygonCollision(lib, particle, config.polygons, Shapes(config.polygons), true, config.mu, contact);
    }
  }
}
