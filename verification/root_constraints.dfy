/** The distance constraint of the repository root, used by the Scene and
    sceneConfig builders: its compliance α = stiffness/dts is fixed when it
    is built. */
module RootConstraints {
  import opened Vectors
  import opened Particles
  import opened Corrections

  class DistanceConstraint {
    const particleA: Particle
    const particleB: Particle
    const initialDistance: real
    const alpha: real

    /** The rest length is the distance at construction and the compliance
        is stiffness/dts, which needs a nonzero dts. */
    constructor (lib: MathLib, particleA: Particle, particleB: Particle, stiffness: real, dts: real)
      requires dts != 0.0
      ensures this.particleA == particleA && this.particleB == particleB
      ensures initialDistance == Length(lib, Sub(particleB.positionX, particleA.positionX))
      ensures alpha * dts == stiffness
      ensures stiffness == 0.0 <==> alpha == 0.0
    {
      this.particleA := particleA;
      this.particleB := particleB;
      initialDistance := Length(lib, Sub(particleB.positionX, particleA.positionX));
      alpha := stiffness / dts;
    }

    /** solve: the same step as the Constraints variant, with the stored α.
        Only the two positionX fields change; the rest length and α stay. */
    method Solve(lib: MathLib)
      modifies particleA, particleB
      ensures particleA.positionX == GuardedPushA(old(particleA.positionX), Correction(lib, old(particleA.positionX), old(particleB.positionX)), particleA.w)
      ensures particleA != particleB ==>
        particleB.positionX == GuardedPushB(old(particleB.positionX), Correction(lib, old(particleA.positionX), old(particleB.positionX)), particleB.w)
      ensures particleA.positionP == old(particleA.positionP) && particleA.velocity == old(particleA.velocity)
      ensures particleB.positionP == old(particleB.positionP) && particleB.velocity == old(particleB.velocity)
    {
      var distance := Length(lib, Sub(particleB.positionX, particleA.positionX));
      var c := distance - initialDistance;
      var n := Normalized(lib, Sub(particleB.positionX, particleA.positionX));
      var lambda := Quot(c, particleA.w + particleB.w + alpha);
      var correction := Scale(n, lambda);
      if particleA.w != 0.0 {
        particleA.positionX := Add(particleA.positionX, Scale(correction, particleA.w));
      }
      if particleB.w != 0.0 {
        particleB.positionX := Sub(particleB.positionX, Scale(correction, particleB.w));
      }
    }

    function Correction(lib: MathLib, xa: Vec, xb: Vec): Vec
    {
      DistanceCorrection(lib, xa, xb, particleA.w, particleB.w, initialDistance, alpha)
    }
  }

  /** A solve applied to a world, in the order of the source's assignments. */
  function DistanceSolved(lib: MathLib, W: World, c: DistanceConstraint): (r: World)
    requires c.particleA in W && c.particleB in W
    ensures r.Keys == W.Keys
  {
    var corr := c.Correction(lib, W[c.particleA].x, W[c.particleB].x);
    var W1 := W[c.particleA := W[c.particleA].(x := GuardedPushA(W[c.particleA].x, corr, c.particleA.w))];
    W1[c.particleB := W1[c.particleB].(x := GuardedPushB(W1[c.particleB].x, corr, c.particleB.w))]
  }
  /** The world form of a solve: only the two endpoints change, each to
      its guarded push; a constraint from a particle to itself changes
      nothing. */
  lemma DistanceSolvedAt(lib: MathLib, W: World, c: DistanceConstraint)
    requires c.particleA in W && c.particleB in W
    ensures forall q :: q in W && q != c.particleA && q != c.particleB ==> DistanceSolved(lib, W, c)[q] == W[q]
    ensures c.particleA == c.particleB ==> DistanceSolved(lib, W, c) == W
    ensures c.particleA != c.particleB ==>
      var corr := c.Correction(lib, W[c.particleA].x, W[c.particleB].x);
      DistanceSolved(lib, W, c)[c.particleA] == W[c.particleA].(x := GuardedPushA(W[c.particleA].x, corr, c.particleA.w)) &&
      DistanceSolved(lib, W, c)[c.particleB] == W[c.particleB].(x := GuardedPushB(W[c.particleB].x, corr, c.particleB.w))
  {
    if c.particleA == c.particleB {
      DistanceSolvedSelf(lib, W, c);
    }
  }

  lemma DistanceSolvedSelf(lib: MathLib, W: World, c: DistanceConstraint)
    requires c.particleA in W && c.particleA == c.particleB
    ensures DistanceSolved(lib, W, c) == W
  {
    CorrectionSelf(lib, c, W[c.particleA].x);
    ZeroPushWorld(W, c.particleA, c.particleA.w);
  }


  lemma CorrectionSelf(lib: MathLib, c: DistanceConstraint, x: Vec)
    ensures c.Correction(lib, x, x) == Zero
  {
    SelfCorrectionInert(lib, x, c.particleA.w, c.particleB.w, c.initialDistance, c.alpha);
  }



}
