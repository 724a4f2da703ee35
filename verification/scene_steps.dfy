/** The substep of the drivers that step a scene whose constraints are the
    root distance constraints (XPBDScene.js, and the inline loops of main.js
    and js.js): integrate, solve the constraints in list order, one
    collision turn per particle, the pair pass, velocity reconstruction.
    The drivers differ in gravity, in the per-particle collision turn, in
    the pair reach and in the step the reconstruction divides by; a Plan
    records those choices. */
module SceneSteps {
  import opened Wrappers
  import opened Vectors
  import opened Particles
  import opened Corrections
  import opened Geometry
  import opened Stages
  import C = Constraints
  import R = RootConstraints

  /** What one substep reads: the particle list, the constraint list,
      gravity, the integration step h, the collision turn, whether the pair
      overlap test uses the first particle's own radius, the shared radius,
      and the step hBack the velocity reconstruction divides by. */
  datatype Plan = Plan(
    particles: seq<Particle>, constraints: seq<R.DistanceConstraint>,
    gravity: Vec, h: real, collide: Step, ownReach: bool, radius: real, hBack: real)

  /** Every particle of the plan has a state in W. */
  predicate Holds(plan: Plan, W: World)
  {
    (forall q :: q in plan.particles ==> q in W) &&
    (forall c :: c in plan.constraints ==> c.particleA in W && c.particleB in W)
  }

  lemma HoldsTouched(plan: Plan, W: World)
    requires Holds(plan, W)
    ensures Members(plan.particles) <= W.Keys && RootEndpoints(plan.constraints) <= W.Keys
  {
  }

  function IntegratePhase(plan: Plan, W: World): (r: World)
    requires Holds(plan, W)
    ensures forall q :: q in W ==> q in r
  {
    HoldsTouched(plan, W);
    ForEach(plan.particles, IntegrateStep(plan.gravity, plan.h), W)
  }

  function SolvePhase(lib: MathLib, plan: Plan, W: World): (r: World)
    requires Holds(plan, W)
    ensures forall q :: q in W ==> q in r
  {
    HoldsTouched(plan, W);
    RootPass(lib, plan.constraints, W)
  }

  function CollidePhase(plan: Plan, W: World): (r: World)
    requires Holds(plan, W)
    ensures forall q :: q in W ==> q in r
  {
    HoldsTouched(plan, W);
    ForEach(plan.particles, plan.collide, W)
  }

  function PairPhase(lib: MathLib, plan: Plan, W: World): (r: World)
    requires Holds(plan, W)
    ensures forall q :: q in W ==> q in r
  {
    HoldsTouched(plan, W);
    PairFold(lib, plan.particles, UpperPairs(|plan.particles|, |plan.particles|), plan.ownReach, plan.radius, W)
  }

  function VelocityPhase(plan: Plan, W: World): (r: World)
    requires Holds(plan, W)
    ensures forall q :: q in W ==> q in r
  {
    HoldsTouched(plan, W);
    ForEach(plan.particles, ReconstructStep(plan.hBack), W)
  }

  /** One substep: the five phases in the source's order. */
  ghost function Substep(lib: MathLib, plan: Plan, W: World): (r: World)
    requires Holds(plan, W)
    ensures forall q :: q in W ==> q in r
  {
    HoldsTouched(plan, W);
    VelocityPhase(plan, PairPhase(lib, plan, CollidePhase(plan, SolvePhase(lib, plan, IntegratePhase(plan, W)))))
  }

  /** n substeps in a row. */
  ghost function Substeps(lib: MathLib, plan: Plan, n: nat, W: World): (r: World)
    requires Holds(plan, W)
    ensures forall q :: q in W ==> q in r
  {
    if n == 0 then W else Substep(lib, plan, Substeps(lib, plan, n - 1, W))
  }

  /** One more substep after i of them. */
  lemma SubstepsNext(lib: MathLib, plan: Plan, i: nat, W: World, before: World, after: World)
    requires Holds(plan, W) && Holds(plan, before)
    requires before == Substeps(lib, plan, i, W)
    requires after == Substep(lib, plan, before)
    ensures after == Substeps(lib, plan, i + 1, W)
  {
  }

  /** Nothing moves a particle between integrate and the velocity
      reconstruction: the constraint pass, the collision turns and the pair
      pass each leave the integrated world as it is. */
  ghost predicate Quiet(lib: MathLib, plan: Plan, W: World)
    requires Holds(plan, W)
  {
    var integrated := IntegratePhase(plan, W);
    SolvePhase(lib, plan, integrated) == integrated &&
    CollidePhase(plan, integrated) == integrated &&
    PairPhase(lib, plan, integrated) == integrated
  }

  /** The velocity round trip of a substep: when integrate and the
      reconstruction use the same nonzero step and nothing moves in between,
      the substep ends in the state integrate left, with the velocities
      integrate computed. */
  lemma QuietSubstep(lib: MathLib, plan: Plan, W: World)
    requires Holds(plan, W) && Quiet(lib, plan, W)
    requires plan.h == plan.hBack && plan.h != 0.0
    ensures Substep(lib, plan, W) == IntegratePhase(plan, W)
  {
    IntegrateThenReconstruct(plan.particles, plan.gravity, plan.h, W);
  }

  /** The round trip when integrate steps by dts·multiplier but the
      reconstruction divides by dts·100: in a quiet substep a listed
      particle gets back the velocity integrate gave it exactly when the
      multiplier is 100 or that velocity is zero. */
  lemma QuietSubstepMismatched(lib: MathLib, plan: Plan, W: World, i: nat, dts: real, multiplier: real)
    requires Holds(plan, W) && Quiet(lib, plan, W)
    requires Distinct(plan.particles) && i < |plan.particles|
    requires dts != 0.0 && plan.h == dts * multiplier && plan.hBack == dts * 100.0
    ensures var p := plan.particles[i];
      var v := IntegratePhase(plan, W)[p].v;
      Substep(lib, plan, W)[p].v == v <==> multiplier == 100.0 || v == Zero
  {
    var ps := plan.particles;
    var p := ps[i];
    var integrated := IntegratePhase(plan, W);
    ForEachEffect(ps, IntegrateStep(plan.gravity, plan.h), W);
    ForEachEffect(ps, ReconstructStep(plan.hBack), integrated);
    assert Substep(lib, plan, W)[p] == Reconstructed(integrated[p], plan.hBack);
    MismatchedRoundTrip(W[p], p.m, p.w, plan.gravity, dts, multiplier);
  }

  /** With containment checked at positionP, a particle whose positionP no
      polygon contains gets only the boundary stage: the contact test does
      not depend on where the substep has moved positionX. */
  lemma ProbeAtPrevious(lib: MathLib, canvas: Option<Canvas>, shapes: seq<seq<Vec>>, mu: real, respond: C.ContactResponse, p: Particle, b: Body)
    requires forall j :: 0 <= j < |shapes| ==> !Inside(lib, shapes[j], b.p)
    ensures CollisionStep(lib, canvas, shapes, false, mu, respond)(p, b) == BoundaryBody(canvas, mu, respond, p, b)
  {
    BoundaryBodyMeaning(canvas, mu, respond, p, b);
    PolygonBodyMeaning(lib, shapes, false, mu, respond, p.w, BoundaryBody(canvas, mu, respond, p, b), |shapes|);
  }
}
