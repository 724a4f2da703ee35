/** js.js: an older animation loop over a Scene. The module captures the
    scene's settings once when it loads and re-reads the two lists at the
    start of every frame. Integrate uses a fixed gravity (0, 9.81) instead of
    the scene's, there is no polygon collision, the pair overlap test uses
    the first particle's own radius, and the velocity reconstruction divides
    by dts·100 whatever the multiplier. */
module JsLoop {
  import opened Wrappers
  import opened Vectors
  import opened Particles
  import opened Stages
  import opened SceneSteps
  import opened Scenes
  import C = Constraints
  import R = RootConstraints
  import Phases

  /** The gravity js.js integrates with. */
  const FixedGravity: Vec := Vec(0.0, 9.81)

  /** The state of the js.js module: the scene, the two lists it re-reads
      each frame, and the settings it captured at load. */
  class JsApp {
    const scene: Scene
    var particles: seq<Particle>
    var constraints: seq<R.DistanceConstraint>
    const dts: real
    const substeps: nat
    const multiplier: real
    const mu: real
    const radius: real
    const mass: real

    /** Loading the module: the lists and the settings are read from the
        scene. */
    constructor (scene: Scene)
      ensures this.scene == scene && particles == scene.particles && constraints == scene.constraints
      ensures dts == scene.dts && substeps == scene.substeps && multiplier == scene.multiplier
      ensures mu == scene.mu && radius == scene.radius && mass == scene.mass
    {
      this.scene := scene;
      particles := scene.particles;
      constraints := scene.constraints;
      dts := scene.dts;
      substeps := scene.substeps;
      multiplier := scene.multiplier;
      mu := scene.mu;
      radius := scene.radius;
      mass := scene.mass;
    }

    /** Every particle a substep of the scene can touch. */
    ghost function Touched(): set<Particle>
      reads scene
    {
      Members(scene.particles) + RootEndpoints(scene.constraints)
    }

    /** What a substep of draw reads: the scene's current lists, gravity
        (0, 9.81), integrate stepping by dts·multiplier, the boundary alone
        for each particle, the pair overlap test at the first particle's own
        radius, and the reconstruction dividing by dts·100. */
    ghost function Current(canvas: Canvas, contact: C.ContactResponse): Plan
      reads scene
    {
      Plan(scene.particles, scene.constraints, FixedGravity, Mul(dts, multiplier),
           BoundaryStep(Some(canvas), mu, contact), true, radius, Mul(dts, 100.0))
    }

    /** The physics of draw: the lists are re-read from the scene, then
        exactly `substeps` substeps. */
    method Draw(lib: MathLib, canvas: Canvas, contact: C.ContactResponse)
      modifies this, scene.particles, RootEndpoints(scene.constraints)
      ensures particles == scene.particles && constraints == scene.constraints
      ensures Snap(Touched()) == Substeps(lib, Current(canvas, contact), substeps, old(Snap(Touched())))
    {
      ghost var W0 := Snap(Touched());
      particles := scene.particles;
      constraints := scene.constraints;
      assert Snap(Touched()) == W0;
      Advance(lib, canvas, contact);
    }

    /** The substep loop of draw, over the lists just re-read. */
    method Advance(lib: MathLib, canvas: Canvas, contact: C.ContactResponse)
      requires particles == scene.particles && constraints == scene.constraints
      modifies scene.particles, RootEndpoints(scene.constraints)
      ensures Snap(Touched()) == Substeps(lib, Current(canvas, contact), substeps, old(Snap(Touched())))
    {
      ghost var W0, S, plan := Snap(Touched()), Touched(), Current(canvas, contact);
      assert Holds(plan, W0) && S == W0.Keys;
      for i := 0 to substeps
        invariant particles == scene.particles && constraints == scene.constraints
        invariant Current(canvas, contact) == plan
        invariant Snap(S) == Substeps(lib, plan, i, W0)
      {
        ghost var before := Snap(S);
        SubstepOnce(lib, canvas, contact, plan, S);
        SubstepsNext(lib, plan, i, W0, before, Snap(S));
      }
    }

    /** The body of draw's substep loop: integrate with the fixed gravity,
        the constraints in list order, the boundary per particle, the pair
        pass, then velocity reconstruction by dts·100. */
    method SubstepOnce(lib: MathLib, canvas: Canvas, contact: C.ContactResponse, ghost plan: Plan, ghost S: set<Particle>)
      requires particles == scene.particles && constraints == scene.constraints
      requires Current(canvas, contact) == plan && S == Touched()
      modifies particles, RootEndpoints(constraints)
      ensures Current(canvas, contact) == plan
      ensures Snap(S) == Substep(lib, plan, old(Snap(S)))
    {
      Integrate(canvas, contact, plan);
      SolveConstraints(lib, canvas, contact, plan);
      Collide(lib, canvas, contact, plan);
      UpdateVelocities(canvas, contact, plan);
    }

    /** The integrate loop of draw: gravity (0, 9.81), step dts·multiplier. */
    method Integrate(canvas: Canvas, contact: C.ContactResponse, ghost plan: Plan)
      requires particles == scene.particles && Current(canvas, contact) == plan
      modifies particles
      ensures Current(canvas, contact) == plan
      ensures Snap(Touched()) == IntegratePhase(plan, old(Snap(Touched())))
    {
      Phases.Integrate(particles, FixedGravity, Mul(dts, multiplier), Touched());
    }

    /** The constraint loop of draw: every constraint in list order. */
    method SolveConstraints(lib: MathLib, canvas: Canvas, contact: C.ContactResponse, ghost plan: Plan)
      requires constraints == scene.constraints && Current(canvas, contact) == plan
      modifies RootEndpoints(constraints)
      ensures Current(canvas, contact) == plan
      ensures Snap(Touched()) == SolvePhase(lib, plan, old(Snap(Touched())))
    {
      Phases.SolveRootConstraints(lib, constraints, Touched());
    }

    /** The collision part of draw: the boundary for each particle in turn,
        then the pair pass. */
    method Collide(lib: MathLib, canvas: Canvas, contact: C.ContactResponse, ghost plan: Plan)
      requires particles == scene.particles && Current(canvas, contact) == plan
      modifies particles
      ensures Current(canvas, contact) == plan
      ensures Snap(Touched()) == PairPhase(lib, plan, CollidePhase(plan, old(Snap(Touched()))))
    {
      Phases.BoundarySweep(particles, Some(canvas), mu, contact, Touched());
      CheckParticleCollision(lib, Touched());
    }

    /** The velocity loop of draw: dividing by dts·100. */
    method UpdateVelocities(canvas: Canvas, contact: C.ContactResponse, ghost plan: Plan)
      requires particles == scene.particles && Current(canvas, contact) == plan
      modifies particles
      ensures Current(canvas, contact) == plan
      ensures Snap(Touched()) == VelocityPhase(plan, old(Snap(Touched())))
    {
      Phases.UpdateVelocities(particles, Mul(dts, 100.0), Touched());
    }

    /** boundaryCollision: the walls, the ceiling and the floor contact of
        the canvas, with the captured μ. */
    method BoundaryCollision(canvas: Canvas, particle: Particle, contact: C.ContactResponse)
      modifies particle
      ensures particle.State() == BoundaryBody(Some(canvas), mu, contact, particle, old(particle.State()))
    {
      Phases.BoundaryCollision(particle, Some(canvas), mu, contact);
    }

    /** checkParticleCollision: every pair i < j; the overlap test uses
        2·particles[i].radius, the correction targets 2·radius. */
    method CheckParticleCollision(lib: MathLib, ghost S: set<Particle>)
      requires Members(particles) <= S
      modifies particles
      ensures Snap(S) == PairFold(lib, particles, UpperPairs(|particles|, |particles|), true, radius, old(Snap(S)))
    {
      Phases.PairCollisions(lib, particles, true, radius, S);
    }
  }

  /** The velocity round trip of js.js: integrate steps by dts·multiplier
      but the reconstruction divides by dts·100, so in a substep where
      nothing moves a particle after integrate, a listed particle gets back
      the velocity integrate gave it exactly when the multiplier is 100 or
      that velocity is zero. */
  lemma DrawVelocityRoundTrip(lib: MathLib, app: JsApp, canvas: Canvas, contact: C.ContactResponse, W: World, i: nat)
    requires Holds(app.Current(canvas, contact), W) && Quiet(lib, app.Current(canvas, contact), W)
    requires Distinct(app.scene.particles) && i < |app.scene.particles| && app.dts != 0.0
    ensures var plan := app.Current(canvas, contact);
      var p := app.scene.particles[i];
      var v := IntegratePhase(plan, W)[p].v;
      Substep(lib, plan, W)[p].v == v <==> app.multiplier == 100.0 || v == Zero
  {
    QuietSubstepMismatched(lib, app.Current(canvas, contact), W, i, app.dts, app.multiplier);
  }
}
