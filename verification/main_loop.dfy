/** main.js: the animation loop over a Scene, with the substep written out
    inline in draw and the collision routines as free functions that read
    the scene and the canvas. The canvas is always present here. */
module MainLoop {
  import opened Wrappers
  import opened Vectors
  import opened Particles
  import opened Stages
  import opened SceneSteps
  import opened Scenes
  import C = Constraints
  import Phases

  /** Every particle a substep of the scene can touch. */
  ghost function Touched(scene: Scene): set<Particle>
    reads scene
  {
    Members(scene.particles) + RootEndpoints(scene.constraints)
  }

  /** What a substep of draw reads: the scene's lists, gravity and μ,
      integrate and the reconstruction both stepping by dts·multiplier,
      boundary then polygons checked at positionP for each particle, and the
      pair test with the scene's radius. */
  ghost function DrawPlan(lib: MathLib, scene: Scene, canvas: Canvas, contact: C.ContactResponse): Plan
    reads scene, scene.polygons
  {
    Plan(scene.particles, scene.constraints, scene.gravity, Mul(scene.dts, scene.multiplier),
         CollisionStep(lib, Some(canvas), Shapes(scene.polygons), false, scene.mu, contact),
         false, scene.radius, Mul(scene.dts, scene.multiplier))
  }

  /** The physics of draw: exactly scene.substeps substeps. */
  method Draw(lib: MathLib, scene: Scene, canvas: Canvas, contact: C.ContactResponse)
    modifies scene.particles, RootEndpoints(scene.constraints)
    ensures Snap(Touched(scene)) == Substeps(lib, DrawPlan(lib, scene, canvas, contact), scene.substeps, old(Snap(Touched(scene))))
  {
    ghost var W0, S, plan := Snap(Touched(scene)), Touched(scene), DrawPlan(lib, scene, canvas, contact);
    assert Holds(plan, W0) && S == W0.Keys;
    for i := 0 to scene.substeps
      invariant DrawPlan(lib, scene, canvas, contact) == plan
      invariant Snap(S) == Substeps(lib, plan, i, W0)
    {
      ghost var before := Snap(S);
      SubstepOnce(lib, scene, canvas, contact, plan, S);
      SubstepsNext(lib, plan, i, W0, before, Snap(S));
    }
  }

  /** The body of draw's substep loop: integrate, the constraints in list
      order, boundary then polygons per particle, the pair pass, velocity
      reconstruction. */
  method SubstepOnce(lib: MathLib, scene: Scene, canvas: Canvas, contact: C.ContactResponse, ghost plan: Plan, ghost S: set<Particle>)
    requires DrawPlan(lib, scene, canvas, contact) == plan && S == Touched(scene)
    modifies scene.particles, RootEndpoints(scene.constraints)
    ensures DrawPlan(lib, scene, canvas, contact) == plan
    ensures Snap(S) == Substep(lib, plan, old(Snap(S)))
  {
    Integrate(lib, scene, canvas, contact, plan);
    SolveConstraints(lib, scene, canvas, contact, plan);
    Collide(lib, scene, canvas, contact, plan);
    UpdateVelocities(lib, scene, canvas, contact, plan);
  }

  /** The integrate loop of draw: gravity from the scene, step dts·multiplier. */
  method Integrate(lib: MathLib, scene: Scene, canvas: Canvas, contact: C.ContactResponse, ghost plan: Plan)
    requires DrawPlan(lib, scene, canvas, contact) == plan
    modifies scene.particles
    ensures DrawPlan(lib, scene, canvas, contact) == plan
    ensures Snap(Touched(scene)) == IntegratePhase(plan, old(Snap(Touched(scene))))
  {
    Phases.Integrate(scene.particles, scene.gravity, Mul(scene.dts, scene.multiplier), Touched(scene));
  }

  /** The constraint loop of draw: every constraint in list order. */
  method SolveConstraints(lib: MathLib, scene: Scene, canvas: Canvas, contact: C.ContactResponse, ghost plan: Plan)
    requires DrawPlan(lib, scene, canvas, contact) == plan
    modifies RootEndpoints(scene.constraints)
    ensures DrawPlan(lib, scene, canvas, contact) == plan
    ensures Snap(Touched(scene)) == SolvePhase(lib, plan, old(Snap(Touched(scene))))
  {
    Phases.SolveRootConstraints(lib, scene.constraints, Touched(scene));
  }

  /** The collision part of draw: boundary then polygons for each particle
      in turn, then the pair pass. */
  method Collide(lib: MathLib, scene: Scene, canvas: Canvas, contact: C.ContactResponse, ghost plan: Plan)
    requires DrawPlan(lib, scene, canvas, contact) == plan
    modifies scene.particles
    ensures DrawPlan(lib, scene, canvas, contact) == plan
    ensures Snap(Touched(scene)) == PairPhase(lib, plan, CollidePhase(plan, old(Snap(Touched(scene)))))
  {
    ghost var W0 := Snap(Touched(scene));
    Sweep(lib, scene, canvas, contact, plan);
    ghost var W1 := Snap(Touched(scene));
    assert W1 == CollidePhase(plan, W0);
    CheckParticleCollision(lib, scene, Touched(scene));
  }

  /** The per-particle loop of draw: boundary, then polygons. */
  method Sweep(lib: MathLib, scene: Scene, canvas: Canvas, contact: C.ContactResponse, ghost plan: Plan)
    requires DrawPlan(lib, scene, canvas, contact) == plan
    modifies scene.particles
    ensures DrawPlan(lib, scene, canvas, contact) == plan
    ensures Snap(Touched(scene)) == CollidePhase(plan, old(Snap(Touched(scene))))
  {
    Phases.CollisionSweep(lib, scene.particles, Some(canvas), scene.polygons, Shapes(scene.polygons), false, scene.mu, contact, Touched(scene));
  }

  /** The velocity loop of draw: dividing by dts·multiplier. */
  method UpdateVelocities(lib: MathLib, scene: Scene, canvas: Canvas, contact: C.ContactResponse, ghost plan: Plan)
    requires DrawPlan(lib, scene, canvas, contact) == plan
    modifies scene.particles
    ensures DrawPlan(lib, scene, canvas, contact) == plan
    ensures Snap(Touched(scene)) == VelocityPhase(plan, old(Snap(Touched(scene))))
  {
    Phases.UpdateVelocities(scene.particles, Mul(scene.dts, scene.multiplier), Touched(scene));
  }

  /** boundaryCollision: the walls, the ceiling and the floor contact of
      the canvas, with the scene's μ. */
  method BoundaryCollision(scene: Scene, canvas: Canvas, particle: Particle, contact: C.ContactResponse)
    modifies particle
    ensures particle.State() == BoundaryBody(Some(canvas), scene.mu, contact, particle, old(particle.State()))
  {
    Phases.BoundaryCollision(particle, Some(canvas), scene.mu, contact);
  }

  /** checkParticleCollision: every pair i < j of the scene's particles,
      reach and gap 2·scene.radius. */
  method CheckParticleCollision(lib: MathLib, scene: Scene, ghost S: set<Particle>)
    requires Members(scene.particles) <= S
    modifies scene.particles
    ensures Snap(S) == PairFold(lib, scene.particles, UpperPairs(|scene.particles|, |scene.particles|), false, scene.radius, old(Snap(S)))
  {
    Phases.PairCollisions(lib, scene.particles, false, scene.radius, S);
  }

  /** checkPolygonCollision: containment and the closest point both taken
      at positionP, with the scene's μ. */
  method CheckPolygonCollision(lib: MathLib, scene: Scene, particle: Particle, contact: C.ContactResponse)
    modifies particle
    ensures particle.State() == PolygonBody(lib, Shapes(scene.polygons), false, scene.mu, contact, particle.w,
                                            old(particle.State()), |scene.polygons|)
  {
    Phases.PolygonCollision(lib, particle, scene.polygons, Shapes(scene.polygons), false, scene.mu, contact);
  }

  /** The velocity round trip of draw: integrate and the reconstruction use
      the same step dts·multiplier, so when it is nonzero and nothing moves
      a particle in between, a substep ends where integrate left it,
      velocities included. */
  lemma DrawQuietSubstep(lib: MathLib, scene: Scene, canvas: Canvas, contact: C.ContactResponse, W: World)
    requires Holds(DrawPlan(lib, scene, canvas, contact), W) && Quiet(lib, DrawPlan(lib, scene, canvas, contact), W)
    requires scene.dts != 0.0 && scene.multiplier != 0.0
    ensures Substep(lib, DrawPlan(lib, scene, canvas, contact), W) == IntegratePhase(DrawPlan(lib, scene, canvas, contact), W)
  {
    MulNonZero(scene.dts, scene.multiplier);
    QuietSubstep(lib, DrawPlan(lib, scene, canvas, contact), W);
  }
}
