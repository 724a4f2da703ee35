/** XPBDScene.js: a solver that owns its scene. The constructor takes an
    options record whose missing fields fall back to defaults; update runs
    the substeps over root distance constraints, with polygon containment
    checked at positionP. */
module SceneSolver {
  import opened Wrappers
  import opened Vectors
  import opened Particles
  import opened Polygons
  import opened Stages
  import opened SceneSteps
  import C = Constraints
  import R = RootConstraints
  import Phases

  /** The options object of the constructor; a field left out is None. */
  datatype SceneOptions = SceneOptions(
    dt: Option<real>, substeps: Option<nat>, gravity: Option<Vec>, multiplier: Option<real>, mu: Option<real>,
    particles: Option<seq<Particle>>, constraints: Option<seq<R.DistanceConstraint>>, polygons: Option<seq<Polygon>>,
    radius: Option<real>, mass: Option<real>, canvas: Option<Canvas>)

  class XPBDScene {
    const dt: real
    const substeps: nat
    const dts: real
    const gravity: Vec
    const multiplier: real
    const mu: real
    const particles: seq<Particle>
    const constraints: seq<R.DistanceConstraint>
    const polygons: seq<Polygon>
    const radius: real
    const mass: real
    /** No default: a scene built without a canvas has no boundary. */
    const canvas: Option<Canvas>

    /** Every option that is given is taken as it is; the others default to
        dt 0.002, 5 substeps, gravity (0, 9.81), multiplier 100, μ 0.3,
        empty lists, radius 15 and mass 1. dts is dt over the substeps. */
    constructor (options: SceneOptions)
      ensures dt == UnwrapOr(options.dt, 0.002) && substeps == UnwrapOr(options.substeps, 5)
      ensures dts == Quot(dt, substeps as real)
      ensures gravity == UnwrapOr(options.gravity, Vec(0.0, 9.81))
      ensures multiplier == UnwrapOr(options.multiplier, 100.0) && mu == UnwrapOr(options.mu, 0.3)
      ensures particles == UnwrapOr(options.particles, []) && constraints == UnwrapOr(options.constraints, [])
      ensures polygons == UnwrapOr(options.polygons, [])
      ensures radius == UnwrapOr(options.radius, 15.0) && mass == UnwrapOr(options.mass, 1.0)
      ensures canvas == options.canvas
    {
      dt := UnwrapOr(options.dt, 0.002);
      substeps := UnwrapOr(options.substeps, 5);
      dts := Quot(UnwrapOr(options.dt, 0.002), UnwrapOr(options.substeps, 5) as real);
      gravity := UnwrapOr(options.gravity, Vec(0.0, 9.81));
      multiplier := UnwrapOr(options.multiplier, 100.0);
      mu := UnwrapOr(options.mu, 0.3);
      particles := UnwrapOr(options.particles, []);
      constraints := UnwrapOr(options.constraints, []);
      polygons := UnwrapOr(options.polygons, []);
      radius := UnwrapOr(options.radius, 15.0);
      mass := UnwrapOr(options.mass, 1.0);
      canvas := options.canvas;
    }

    /** Every particle a step can touch: the particle list and the
        particles of every constraint. */
    ghost function Bodies(): set<Particle>
    {
      Members(particles) + RootEndpoints(constraints)
    }

    /** What a substep reads: integrate and the reconstruction both step by
        dts·multiplier, the collision turn is boundary then polygons checked
        at positionP, and the pair test uses the shared radius. */
    ghost function Current(lib: MathLib, contact: C.ContactResponse): Plan
      reads polygons
    {
      Plan(particles, constraints, gravity, Mul(dts, multiplier),
           CollisionStep(lib, canvas, Shapes(polygons), false, mu, contact), false, radius, Mul(dts, multiplier))
    }

    /** update: exactly `substeps` substeps. */
    method Update(lib: MathLib, contact: C.ContactResponse)
      modifies particles, RootEndpoints(constraints)
      ensures Snap(Bodies()) == Substeps(lib, Current(lib, contact), substeps, old(Snap(Bodies())))
    {
      ghost var W0, S, plan := Snap(Bodies()), Bodies(), Current(lib, contact);
      assert Holds(plan, W0) && S == W0.Keys;
      for i := 0 to substeps
        invariant Current(lib, contact) == plan
        invariant Snap(S) == Substeps(lib, plan, i, W0)
      {
        ghost var before := Snap(S);
        SubstepOnce(lib, contact, plan);
        SubstepsNext(lib, plan, i, W0, before, Snap(S));
      }
    }

    /** The body of update's loop: the four phases in order. */
    method SubstepOnce(lib: MathLib, contact: C.ContactResponse, ghost plan: Plan)
      requires Current(lib, contact) == plan
      modifies particles, RootEndpoints(constraints)
      ensures Current(lib, contact) == plan
      ensures Snap(Bodies()) == Substep(lib, plan, old(Snap(Bodies())))
    {
      Integrate(lib, contact, plan);
      SolveConstraints(lib, contact, plan);
      HandleCollisions(lib, contact, plan);
      UpdateVelocities(lib, contact, plan);
    }

    /** integrate: every listed particle, with step dts·multiplier. */
    method Integrate(lib: MathLib, contact: C.ContactResponse, ghost plan: Plan)
      requires Current(lib, contact) == plan
      modifies particles
      ensures Current(lib, contact) == plan
      ensures Snap(Bodies()) == IntegratePhase(plan, old(Snap(Bodies())))
    {
      Phases.Integrate(particles, gravity, Mul(dts, multiplier), Bodies());
    }

    /** solveConstraints: every constraint in list order, each with its own
        compliance. */
    method SolveConstraints(lib: MathLib, contact: C.ContactResponse, ghost plan: Plan)
      requires Current(lib, contact) == plan
      modifies RootEndpoints(constraints)
      ensures Current(lib, contact) == plan
      ensures Snap(Bodies()) == SolvePhase(lib, plan, old(Snap(Bodies())))
    {
      Phases.SolveRootConstraints(lib, constraints, Bodies());
    }

    /** updateVelocities: every listed particle, dividing by dts·multiplier. */
    method UpdateVelocities(lib: MathLib, contact: C.ContactResponse, ghost plan: Plan)
      requires Current(lib, contact) == plan
      modifies particles
      ensures Current(lib, contact) == plan
      ensures Snap(Bodies()) == VelocityPhase(plan, old(Snap(Bodies())))
    {
      Phases.UpdateVelocities(particles, Mul(dts, multiplier), Bodies());
    }

    /** handleCollisions: boundary then polygons for each particle in turn,
        then the pair pass. */
    method HandleCollisions(lib: MathLib, contact: C.ContactResponse, ghost plan: Plan)
      requires Current(lib, contact) == plan
      modifies particles
      ensures Current(lib, contact) == plan
      ensures Snap(Bodies()) == PairPhase(lib, plan, CollidePhase(plan, old(Snap(Bodies()))))
    {
      Phases.CollisionSweep(lib, particles, canvas, polygons, Shapes(polygons), false, mu, contact, Bodies());
      CheckParticleCollision(lib, contact, plan);
    }

    /** boundaryCollision: nothing without a canvas; otherwise the walls,
        the ceiling and the floor contact with this scene's μ. */
    method BoundaryCollision(particle: Particle, contact: C.ContactResponse)
      modifies particle
      ensures particle.State() == BoundaryBody(canvas, mu, contact, particle, old(particle.State()))
    {
      Phases.BoundaryCollision(particle, canvas, mu, contact);
    }

    /** checkParticleCollision: every pair i < j, reach and gap 2·radius. */
    method CheckParticleCollision(lib: MathLib, contact: C.ContactResponse, ghost plan: Plan)
      requires Current(lib, contact) == plan
      modifies particles
      ensures Current(lib, contact) == plan
      ensures Snap(Bodies()) == PairPhase(lib, plan, old(Snap(Bodies())))
    {
      Phases.PairCollisions(lib, particles, false, radius, Bodies());
    }

    /** checkPolygonCollision: containment and the closest point are both
        taken at positionP. */
    method CheckPolygonCollision(lib: MathLib, particle: Particle, contact: C.ContactResponse)
      modifies particle
      ensures particle.State() == PolygonBody(lib, Shapes(polygons), false, mu, contact, particle.w,
                                              old(particle.State()), |polygons|)
    {
      Phases.PolygonCollision(lib, particle, polygons, Shapes(polygons), false, mu, contact);
    }
  }

  /** The velocity round trip of XPBDScene: when the substep step is
      nonzero and nothing moves a particle after integrate, a substep ends
      where integrate left it, velocities included. */
  lemma SceneQuietSubstep(lib: MathLib, contact: C.ContactResponse, scene: XPBDScene, W: World)
    requires Holds(scene.Current(lib, contact), W) && Quiet(lib, scene.Current(lib, contact), W)
    requires scene.dts != 0.0 && scene.multiplier != 0.0
    ensures Substep(lib, scene.Current(lib, contact), W) == IntegratePhase(scene.Current(lib, contact), W)
  {
    MulNonZero(scene.dts, scene.multiplier);
    QuietSubstep(lib, scene.Current(lib, contact), W);
  }
}
