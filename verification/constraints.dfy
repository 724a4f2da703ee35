/** The constraint classes of the Constraints directory. The distance and
    mouse constraints take one XPBD position-correction step on the fields
    of their particles. The environment-collision and volume constraints
    are known only by how they are called; their responses are parameters. */
module Constraints {
  import opened Wrappers
  import opened Vectors
  import opened Particles
  import opened Corrections

  /** A distance constraint between two particles. Its rest length is fixed
      at construction; stiffness and damping are stored and never written,
      and damping is never read. `configDts2` is the `dts2` of the config
      object handed to the constructor: None when there is no config or it
      has no such field. */
  class DistanceConstraint {
    const particleA: Particle
    const particleB: Particle
    const initialDistance: real
    const stiffness: real
    const damping: real
    const configDts2: Option<real>

    /** The rest length is the distance between the two particles at
        construction. */
    constructor (lib: MathLib, particleA: Particle, particleB: Particle, stiffness: real, damping: real, configDts2: Option<real>)
      ensures this.particleA == particleA && this.particleB == particleB
      ensures initialDistance == Length(lib, Sub(particleB.positionX, particleA.positionX))
      ensures this.stiffness == stiffness && this.damping == damping && this.configDts2 == configDts2
    {
      this.particleA := particleA;
      this.particleB := particleB;
      initialDistance := Length(lib, Sub(particleB.positionX, particleA.positionX));
      this.stiffness := stiffness;
      this.damping := damping;
      this.configDts2 := configDts2;
    }

    /** The compliance solve computes, stiffness / config.dts2: there is
        none unless the config carries a nonzero dts2. */
    function AlphaAsWritten(): (alpha: Option<real>)
      ensures alpha.Some? <==> configDts2.Some? && configDts2.value != 0.0
      ensures alpha.Some? ==> alpha.value * configDts2.value == stiffness
    {
      match configDts2
      case None => None
      case Some(dts2) => if dts2 == 0.0 then None else Some(stiffness / dts2)
    }

    /** solve, with the compliance α given explicitly: with n the direction
        from A to B and c = |B − A| − initialDistance, A moves by n·λ·wA and
        B by −n·λ·wB, λ = c/(wA + wB + α), each only if its inverse mass is
        nonzero. Only the two positionX fields change. */
    method Solve(lib: MathLib, alpha: real)
      modifies particleA, particleB
      ensures particleA.positionX == GuardedPushA(old(particleA.positionX), Correction(lib, old(particleA.positionX), old(particleB.positionX), alpha), particleA.w)
      ensures particleA != particleB ==>
        particleB.positionX == GuardedPushB(old(particleB.positionX), Correction(lib, old(particleA.positionX), old(particleB.positionX), alpha), particleB.w)
      ensures particleA.positionP == old(particleA.positionP) && particleA.velocity == old(particleA.velocity)
      ensures particleB.positionP == old(particleB.positionP) && particleB.velocity == old(particleB.velocity)
    {
      var distance := Length(lib, Sub(particleB.positionX, particleA.positionX));
      var c := distance - initialDistance;
      var n := Normalized(lib, Sub(particleB.positionX, particleA.positionX));
      var lambda := Quot(c, particleA.w + particleB.w + alpha);
      var correction := Scale(n, lambda);
      if particleA.w != 0.0 {
        particleA.positionX := Add(particleA.positionX, Scale(correction, particleA.w));
      }
      if particleB.w != 0.0 {
        particleB.positionX := Sub(particleB.positionX, Scale(correction, particleB.w));
      }
    }

    function Correction(lib: MathLib, xa: Vec, xb: Vec, alpha: real): Vec
    {
      DistanceCorrection(lib, xa, xb, particleA.w, particleB.w, initialDistance, alpha)
    }
  }

  /** A distance constraint solve applied to a world, in the order of the
      source's two assignments (so a constraint from a particle to itself is
      handled as the source handles it). */
  function DistanceSolved(lib: MathLib, W: World, c: DistanceConstraint, alpha: real): (r: World)
    requires c.particleA in W && c.particleB in W
    ensures r.Keys == W.Keys
  {
    var corr := c.Correction(lib, W[c.particleA].x, W[c.particleB].x, alpha);
    var W1 := W[c.particleA := W[c.particleA].(x := GuardedPushA(W[c.particleA].x, corr, c.particleA.w))];
    W1[c.particleB := W1[c.particleB].(x := GuardedPushB(W1[c.particleB].x, corr, c.particleB.w))]
  }
  /** The world form of a solve: only the two endpoints change, each to
      its guarded push; a constraint from a particle to itself changes
      nothing. */
  lemma DistanceSolvedAt(lib: MathLib, W: World, c: DistanceConstraint, alpha: real)
    requires c.particleA in W && c.particleB in W
    ensures forall q :: q in W && q != c.particleA && q != c.particleB ==> DistanceSolved(lib, W, c, alpha)[q] == W[q]
    ensures c.particleA == c.particleB ==> DistanceSolved(lib, W, c, alpha) == W
    ensures c.particleA != c.particleB ==>
      var corr := c.Correction(lib, W[c.particleA].x, W[c.particleB].x, alpha);
      DistanceSolved(lib, W, c, alpha)[c.particleA] == W[c.particleA].(x := GuardedPushA(W[c.particleA].x, corr, c.particleA.w)) &&
      DistanceSolved(lib, W, c, alpha)[c.particleB] == W[c.particleB].(x := GuardedPushB(W[c.particleB].x, corr, c.particleB.w))
  {
    if c.particleA == c.particleB {
      DistanceSolvedSelf(lib, W, c, alpha);
    }
  }

  lemma DistanceSolvedSelf(lib: MathLib, W: World, c: DistanceConstraint, alpha: real)
    requires c.particleA in W && c.particleA == c.particleB
    ensures DistanceSolved(lib, W, c, alpha) == W
  {
    CorrectionSelf(lib, c, W[c.particleA].x, alpha);
    ZeroPushWorld(W, c.particleA, c.particleA.w);
  }


  lemma CorrectionSelf(lib: MathLib, c: DistanceConstraint, x: Vec, alpha: real)
    ensures c.Correction(lib, x, x, alpha) == Zero
  {
    SelfCorrectionInert(lib, x, c.particleA.w, c.particleB.w, c.initialDistance, alpha);
  }




  /** A particle pulled toward the mouse position. */
  class MouseDistanceConstraint {
    const particleA: Particle
    var mousePos: Vec
    const stiffness: real
    /** The `dts` of the config handed to the constructor; None when the
        caller passes something without one. */
    const configDts: Option<real>

    constructor (particleA: Particle, mousePos: Vec, stiffness: real, configDts: Option<real>)
      ensures this.particleA == particleA && this.mousePos == mousePos
      ensures this.stiffness == stiffness && this.configDts == configDts
    {
      this.particleA := particleA;
      this.mousePos := mousePos;
      this.stiffness := stiffness;
      this.configDts := configDts;
    }

    /** The compliance solve computes, stiffness / config.dts: there is none
        unless the config carries a nonzero dts. */
    function AlphaAsWritten(): (alpha: Option<real>)
      reads this
      ensures alpha.Some? <==> configDts.Some? && configDts.value != 0.0
      ensures alpha.Some? ==> alpha.value * configDts.value == stiffness
    {
      match configDts
      case None => None
      case Some(dts) => if dts == 0.0 then None else Some(stiffness / dts)
    }

    /** solve, with α given explicitly: a particle with nonzero inverse mass
        moves toward the mouse by c/α along the direction to it, c being its
        distance to the mouse. The mouse position and the particle's other
        fields are untouched. */
    method Solve(lib: MathLib, alpha: real)
      modifies particleA
      ensures particleA.positionX == MouseStep(lib, old(particleA.positionX), particleA.w, mousePos, alpha)
      ensures mousePos == old(mousePos)
      ensures particleA.positionP == old(particleA.positionP) && particleA.velocity == old(particleA.velocity)
    {
      var c := Length(lib, Sub(mousePos, particleA.positionX));
      var n := Normalized(lib, Sub(mousePos, particleA.positionX));
      var lambda := Quot(c, alpha);
      var correction := Scale(n, lambda);
      if particleA.w != 0.0 {
        particleA.positionX := Add(particleA.positionX, correction);
      }
    }
  }

  /** How an environment contact moves its particle: given the particle's
      state and inverse mass, the contact point q, the normal n (either may
      be null) and the friction coefficient, the new positionX. */
  type ContactResponse = (Body, real, Option<Vec>, Option<Vec>, real) -> Vec

  /** A contact of one particle with the canvas floor or a polygon. */
  class EnvironmentCollisionConstraint {
    const particle: Particle
    const q: Option<Vec>
    const n: Option<Vec>
    const mu: real

    constructor (particle: Particle, q: Option<Vec>, n: Option<Vec>, mu: real)
      ensures this.particle == particle && this.q == q && this.n == n && this.mu == mu
    {
      this.particle := particle;
      this.q := q;
      this.n := n;
      this.mu := mu;
    }

    /** solve: only the particle's positionX changes, to what the response
        gives for this contact. */
    method Solve(respond: ContactResponse)
      modifies particle
      ensures particle.positionX == respond(old(particle.State()), particle.w, q, n, mu)
      ensures particle.positionP == old(particle.positionP) && particle.velocity == old(particle.velocity)
    {
      particle.positionX := respond(particle.State(), particle.w, q, n, mu);
    }
  }

  /** A contact solve applied to a world. */
  function ContactSolved(W: World, p: Particle, q: Option<Vec>, n: Option<Vec>, mu: real, respond: ContactResponse): (r: World)
    requires p in W
    ensures r.Keys == W.Keys
  {
    W[p := W[p].(x := respond(W[p], p.w, q, n, mu))]
  }

  /** How a volume constraint moves particle i: given the positions and
      inverse masses of all its particles at the start of the solve, its
      compliance and time step, the new positionX of particle i. */
  type VolumeResponse = (seq<Vec>, seq<real>, real, real, nat) -> Vec

  /** An area-preserving constraint over a ring of particles. */
  class VolumeConstraint {
    const particles: seq<Particle>
    const compliance: real
    const dts: real

    constructor (particles: seq<Particle>, compliance: real, dts: real)
      ensures this.particles == particles && this.compliance == compliance && this.dts == dts
    {
      this.particles := particles;
      this.compliance := compliance;
      this.dts := dts;
    }

    /** solve: every particle's positionX is set, in list order, to what the
        response computes from the positions at the start of the solve;
        nothing else changes. */
    method Solve(respond: VolumeResponse)
      modifies particles
      ensures Snap(Members(particles)) == VolumeSolved(old(Snap(Members(particles))), this, respond)
    {
      ghost var S := Members(particles);
      ghost var W0 := Snap(S);
      var positions := Positions(particles);
      var ws := InverseMasses(particles);
      PositionsSnapped(particles, S);
      for i := 0 to |particles|
        invariant Snap(S) == VolumeSolvedUpTo(W0, this, respond, positions, i)
      {
        ghost var before := Snap(S);
        PlaceAt(particles[i], respond(positions, ws, compliance, dts, i), S);
        VolumeSolvedStep(W0, this, respond, positions, i, before, Snap(S));
      }
    }
  }

  /** positionX := x on one particle, seen on the world. */
  method PlaceAt(p: Particle, x: Vec, ghost S: set<Particle>)
    requires p in S
    modifies p
    ensures Snap(S) == old(Snap(S))[p := old(Snap(S))[p].(x := x)]
  {
    ghost var before := Snap(S);
    p.positionX := x;
    ghost var after := before[p := before[p].(x := x)];
    forall q | q in S
      ensures Snap(S)[q] == after[q]
    {
    }
  }

  function Positions(ps: seq<Particle>): (r: seq<Vec>)
    reads set p | p in ps
    ensures |r| == |ps| && forall i :: 0 <= i < |ps| ==> r[i] == ps[i].positionX
  {
    seq(|ps|, i reads set p | p in ps requires 0 <= i < |ps| => ps[i].positionX)
  }

  function InverseMasses(ps: seq<Particle>): (r: seq<real>)
    ensures |r| == |ps| && forall i :: 0 <= i < |ps| ==> r[i] == ps[i].w
  {
    seq(|ps|, i requires 0 <= i < |ps| => ps[i].w)
  }

  /** The first k assignments of a volume solve whose start positions were
      `positions`. */
  function VolumeSolvedUpTo(W: World, vc: VolumeConstraint, respond: VolumeResponse, positions: seq<Vec>, k: nat): (r: World)
    requires k <= |vc.particles| && Members(vc.particles) <= W.Keys
    ensures r.Keys == W.Keys
  {
    if k == 0 then W
    else
      var r := VolumeSolvedUpTo(W, vc, respond, positions, k - 1);
      var p := vc.particles[k - 1];
      r[p := r[p].(x := respond(positions, InverseMasses(vc.particles), vc.compliance, vc.dts, k - 1))]
  }

  /** One more assignment of a volume solve. */
  lemma VolumeSolvedStep(W: World, vc: VolumeConstraint, respond: VolumeResponse, positions: seq<Vec>, k: nat,
                         before: World, after: World)
    requires k < |vc.particles| && Members(vc.particles) <= W.Keys
    requires before == VolumeSolvedUpTo(W, vc, respond, positions, k)
    requires after == before[vc.particles[k] := before[vc.particles[k]].(x := respond(positions, InverseMasses(vc.particles), vc.compliance, vc.dts, k))]
    ensures after == VolumeSolvedUpTo(W, vc, respond, positions, k + 1)
  {
  }

  /** A volume solve applied to a world. */
  function VolumeSolved(W: World, vc: VolumeConstraint, respond: VolumeResponse): (r: World)
    requires Members(vc.particles) <= W.Keys
    ensures r.Keys == W.Keys
  {
    VolumeSolvedUpTo(W, vc, respond, PositionsIn(W, vc.particles), |vc.particles|)
  }

  /** The positions of the listed particles in W, in list order. */
  function PositionsIn(W: World, ps: seq<Particle>): (r: seq<Vec>)
    requires Members(ps) <= W.Keys
    ensures |r| == |ps| && forall i :: 0 <= i < |ps| ==> r[i] == W[ps[i]].x
  {
    seq(|ps|, i requires 0 <= i < |ps| => W[ps[i]].x)
  }

  /** Reading the positions off the particles is reading them off the
      world snapshot. */
  lemma PositionsSnapped(ps: seq<Particle>, S: set<Particle>)
    requires Members(ps) <= S
    ensures Positions(ps) == PositionsIn(Snap(S), ps)
  {
  }

  /** A volume solve reads and writes only its own particles: on a larger
      world that agrees with V on V's particles it does what it does on V
      and leaves every other particle alone. */
  lemma VolumeSolvedLocal(W: World, V: World, vc: VolumeConstraint, respond: VolumeResponse)
    requires Members(vc.particles) <= V.Keys <= W.Keys
    requires forall q :: q in V ==> V[q] == W[q]
    ensures forall q :: q in W ==> VolumeSolved(W, vc, respond)[q] == if q in V then VolumeSolved(V, vc, respond)[q] else W[q]
  {
    assert PositionsIn(W, vc.particles) == PositionsIn(V, vc.particles);
    VolumeSolvedUpToLocal(W, V, vc, respond, PositionsIn(W, vc.particles), |vc.particles|);
  }

  lemma {:induction false} VolumeSolvedUpToLocal(W: World, V: World, vc: VolumeConstraint, respond: VolumeResponse, positions: seq<Vec>, k: nat)
    requires k <= |vc.particles| && Members(vc.particles) <= V.Keys <= W.Keys
    requires forall q :: q in V ==> V[q] == W[q]
    ensures forall q :: q in W ==>
      VolumeSolvedUpTo(W, vc, respond, positions, k)[q] == if q in V then VolumeSolvedUpTo(V, vc, respond, positions, k)[q] else W[q]
  {
    if k > 0 {
      VolumeSolvedUpToLocal(W, V, vc, respond, positions, k - 1);
    }
  }

}
