/** The phase loops every solver variant runs over its particle array, each
    proved to leave the world the matching Stages function computes. The
    variants differ only in the arguments they pass. */
module Phases {
  import opened Wrappers
  import opened Vectors
  import opened Particles
  import opened Corrections
  import opened Geometry
  import opened Polygons
  import opened Stages
  import C = Constraints
  import R = RootConstraints

  /** integrate with time step h = dts·multiplier. S is any set of particles
      holding the list; the rest of it is left alone. */
  method Integrate(ps: seq<Particle>, gravity: Vec, h: real, ghost S: set<Particle>)
    requires Members(ps) <= S
    modifies ps
    ensures Snap(S) == ForEach(ps, IntegrateStep(gravity, h), old(Snap(S)))
  {
    ghost var W0 := Snap(S);
    var i := 0;
    while i < |ps|
      invariant 0 <= i <= |ps|
      invariant Snap(S) == ForEach(ps[..i], IntegrateStep(gravity, h), W0)
    {
      ghost var before := Snap(S);
      IntegrateOne(ps[i], gravity, h, S);
      ForEachStep(ps, i, IntegrateStep(gravity, h), W0, before, Snap(S));
      i := i + 1;
    }
    assert ps[..|ps|] == ps;
  }

  /** The body of integrate's loop for one particle. */
  method IntegrateOne(particle: Particle, gravity: Vec, h: real, ghost S: set<Particle>)
    requires particle in S
    modifies particle
    ensures Snap(S) == old(Snap(S))[particle := IntegrateStep(gravity, h)(particle, old(Snap(S))[particle])]
  {
    ghost var before := Snap(S);
    var force := Scale(gravity, particle.m);
    var acceleration := Scale(force, particle.w);
    particle.velocity := Add(particle.velocity, Scale(acceleration, h));
    particle.positionP := particle.positionX;
    particle.positionX := Add(particle.positionX, Scale(particle.velocity, h));
    ghost var after := before[particle := IntegrateStep(gravity, h)(particle, before[particle])];
    forall q | q in S
      ensures Snap(S)[q] == after[q]
    {
    }
  }

  /** updateVelocities: velocity := (positionX − positionP)/h. */
  method UpdateVelocities(ps: seq<Particle>, h: real, ghost S: set<Particle>)
    requires Members(ps) <= S
    modifies ps
    ensures Snap(S) == ForEach(ps, ReconstructStep(h), old(Snap(S)))
  {
    ghost var W0 := Snap(S);
    var i := 0;
    while i < |ps|
      invariant 0 <= i <= |ps|
      invariant Snap(S) == ForEach(ps[..i], ReconstructStep(h), W0)
    {
      ghost var before := Snap(S);
      ReconstructOne(ps[i], h, S);
      ForEachStep(ps, i, ReconstructStep(h), W0, before, Snap(S));
      i := i + 1;
    }
    assert ps[..|ps|] == ps;
  }

  /** The body of updateVelocities' loop for one particle. */
  method ReconstructOne(particle: Particle, h: real, ghost S: set<Particle>)
    requires particle in S
    modifies particle
    ensures Snap(S) == old(Snap(S))[particle := ReconstructStep(h)(particle, old(Snap(S))[particle])]
  {
    ghost var before := Snap(S);
    particle.velocity := DivVec(Sub(particle.positionX, particle.positionP), h);
    ghost var after := before[particle := ReconstructStep(h)(particle, before[particle])];
    forall q | q in S
      ensures Snap(S)[q] == after[q]
    {
    }
  }

  /** boundaryCollision on one particle, the floor contact solved at once. */
  method BoundaryCollision(particle: Particle, canvas: Option<Canvas>, mu: real, respond: C.ContactResponse)
    modifies particle
    ensures particle.State() == BoundaryBody(canvas, mu, respond, particle, old(particle.State()))
  {
    if canvas.None? {
      return;
    }
    var width, height := canvas.value.width, canvas.value.height;
    if particle.positionX.x > width - particle.radius {
      particle.positionX := particle.positionX.(x := width - particle.radius);
    }
    if particle.positionX.x < particle.radius {
      particle.positionX := particle.positionX.(x := particle.radius);
    }
    if particle.positionX.y < particle.radius {
      particle.positionX := particle.positionX.(y := particle.radius);
    }
    if particle.positionX.y > height - particle.radius {
      var q := Vec(particle.positionP.x, height - particle.radius);
      var n := Vec(0.0, -1.0);
      var constraint := new C.EnvironmentCollisionConstraint(particle, Some(q), Some(n), mu);
      constraint.Solve(respond);
    }
  }

  /** checkPolygonCollision on one particle: the winding test on positionX
      (atX) or positionP, the contact point from positionP, the contact
      solved at once. */
  method PolygonCollision(lib: MathLib, particle: Particle, polygons: seq<Polygon>, ghost shapes: seq<seq<Vec>>, atX: bool, mu: real,
                          respond: C.ContactResponse)
    requires ShapesAre(polygons, shapes)
    modifies particle
    ensures ShapesAre(polygons, shapes)
    ensures particle.State() == PolygonBody(lib, shapes, atX, mu, respond, particle.w, old(particle.State()), |shapes|)
  {
    ghost var b0 := particle.State();
    var k := 0;
    while k < |polygons|
      invariant 0 <= k <= |polygons| && ShapesAre(polygons, shapes)
      invariant particle.State() == PolygonBody(lib, shapes, atX, mu, respond, particle.w, b0, k)
    {
      PolygonTurn(lib, particle, polygons[k].transformedPoints, atX, mu, respond);
      k := k + 1;
    }
  }

  /** One polygon's test and contact solve for one particle. */
  method PolygonTurn(lib: MathLib, particle: Particle, points: seq<Vec>, atX: bool, mu: real, respond: C.ContactResponse)
    modifies particle
    ensures particle.State() == OnePolygon(lib, points, atX, mu, respond, particle.w, old(particle.State()))
  {
    var inside := PointInPolygon(lib, points, if atX then particle.positionX else particle.positionP);
    if inside {
      var cp := ClosestPointOnPolygon(lib, points, particle.positionP);
      var constraint := new C.EnvironmentCollisionConstraint(particle, cp.closestPoint, cp.normal, mu);
      constraint.Solve(respond);
    }
  }

  /** The per-particle part of handleCollisions: boundary, then polygons,
      for each particle in turn; `shapes` are the placed polygon vertices. */
  method CollisionSweep(lib: MathLib, ps: seq<Particle>, canvas: Option<Canvas>, polygons: seq<Polygon>, ghost shapes: seq<seq<Vec>>,
                        atX: bool, mu: real, respond: C.ContactResponse, ghost S: set<Particle>)
    requires Members(ps) <= S && ShapesAre(polygons, shapes)
    modifies ps
    ensures ShapesAre(polygons, shapes)
    ensures Snap(S) == ForEach(ps, CollisionStep(lib, canvas, shapes, atX, mu, respond), old(Snap(S)))
  {
    ghost var W0 := Snap(S);
    ghost var step := CollisionStep(lib, canvas, shapes, atX, mu, respond);
    var i := 0;
    while i < |ps|
      invariant 0 <= i <= |ps| && ShapesAre(polygons, shapes)
      invariant Snap(S) == ForEach(ps[..i], step, W0)
    {
      ghost var before := Snap(S);
      CollisionTurn(lib, ps[i], canvas, polygons, shapes, atX, mu, respond, step, S);
      ForEachStep(ps, i, step, W0, before, Snap(S));
      i := i + 1;
    }
    assert ps[..|ps|] == ps;
  }

  /** One particle's turn in the collision sweep: boundary, then polygons. */
  method CollisionTurn(lib: MathLib, particle: Particle, canvas: Option<Canvas>, polygons: seq<Polygon>, ghost shapes: seq<seq<Vec>>,
                       atX: bool, mu: real, respond: C.ContactResponse, ghost step: Step, ghost S: set<Particle>)
    requires particle in S && ShapesAre(polygons, shapes) && step == CollisionStep(lib, canvas, shapes, atX, mu, respond)
    modifies particle
    ensures ShapesAre(polygons, shapes)
    ensures Snap(S) == old(Snap(S))[particle := step(particle, old(Snap(S))[particle])]
  {
    ghost var before := Snap(S);
    BoundaryCollision(particle, canvas, mu, respond);
    PolygonCollision(lib, particle, polygons, shapes, atX, mu, respond);
    ghost var after := before[particle := particle.State()];
    forall q | q in S
      ensures Snap(S)[q] == after[q]
    {
    }
  }

  /** A boundary-only collision sweep: boundaryCollision for each particle
      in turn. */
  method BoundarySweep(ps: seq<Particle>, canvas: Option<Canvas>, mu: real, respond: C.ContactResponse, ghost S: set<Particle>)
    requires Members(ps) <= S
    modifies ps
    ensures Snap(S) == ForEach(ps, BoundaryStep(canvas, mu, respond), old(Snap(S)))
  {
    ghost var W0 := Snap(S);
    ghost var step := BoundaryStep(canvas, mu, respond);
    var i := 0;
    while i < |ps|
      invariant 0 <= i <= |ps|
      invariant Snap(S) == ForEach(ps[..i], step, W0)
    {
      var particle := ps[i];
      ghost var before := Snap(S);
      BoundaryCollision(particle, canvas, mu, respond);
      forall q | q in S
        ensures Snap(S)[q] == before[particle := step(particle, before[particle])][q]
      {
      }
      ForEachStep(ps, i, step, W0, before, Snap(S));
      i := i + 1;
    }
    assert ps[..|ps|] == ps;
  }

  /** The pair loop: for i < j, an overlapping pair (closer than `reach`)
      is pushed apart to 2·radius. */
  method PairCollisions(lib: MathLib, ps: seq<Particle>, ownReach: bool, radius: real, ghost S: set<Particle>)
    requires Members(ps) <= S
    modifies ps
    ensures Snap(S) == PairFold(lib, ps, UpperPairs(|ps|, |ps|), ownReach, radius, old(Snap(S)))
  {
    ghost var W0 := Snap(S);
    var i := 0;
    while i < |ps|
      invariant 0 <= i <= |ps|
      invariant Snap(S) == PairFold(lib, ps, UpperPairs(|ps|, i), ownReach, radius, W0)
    {
      ghost var before := Snap(S);
      PairRow(lib, ps, i, ownReach, radius, S);
      PairFoldAppend(lib, ps, UpperPairs(|ps|, i), RowPairs(i, i + 1, |ps|), ownReach, radius, W0);
      i := i + 1;
    }
  }

  /** Row i of the pair loop: particle i against every later particle. */
  method PairRow(lib: MathLib, ps: seq<Particle>, i: nat, ownReach: bool, radius: real, ghost S: set<Particle>)
    requires i < |ps| && Members(ps) <= S
    modifies ps
    ensures Snap(S) == PairFold(lib, ps, RowPairs(i, i + 1, |ps|), ownReach, radius, old(Snap(S)))
  {
    ghost var W0 := Snap(S);
    var j := i + 1;
    while j < |ps|
      invariant i + 1 <= j <= |ps|
      invariant Snap(S) == PairFold(lib, ps, RowPairs(i, i + 1, j), ownReach, radius, W0)
    {
      ghost var before := Snap(S);
      VisitPair(lib, ps, i, j, ownReach, radius, S);
      RowStep(lib, ps, i, j, ownReach, radius, W0, before, Snap(S));
      j := j + 1;
    }
  }

  /** The body of the pair loop for the pair (i, j). */
  method VisitPair(lib: MathLib, ps: seq<Particle>, i: nat, j: nat, ownReach: bool, radius: real, ghost S: set<Particle>)
    requires i < |ps| && j < |ps| && Members(ps) <= S
    modifies ps[i], ps[j]
    ensures Snap(S) == PairUpdate(lib, old(Snap(S)), ps[i], ps[j], Reach(ps[i], ownReach, radius), radius * 2.0)
  {
    var pa := ps[i];
    var pb := ps[j];
    var reach := if ownReach then pa.radius * 2.0 else radius * 2.0;
    SeparatePair(lib, pa, pb, reach, radius * 2.0, S);
  }

  /** One pair of the pair loop: pushed apart to `gap` along their
      direction when closer than `reach`. */
  method SeparatePair(lib: MathLib, pa: Particle, pb: Particle, reach: real, gap: real, ghost S: set<Particle>)
    requires pa in S && pb in S
    modifies pa, pb
    ensures Snap(S) == PairUpdate(lib, old(Snap(S)), pa, pb, reach, gap)
  {
    ghost var before := Snap(S);
    var d := Sub(pb.positionX, pa.positionX);
    var dist := Length(lib, d);
    if dist < reach {
      var n := Normalized(lib, d);
      var c := dist - gap;
      var lambda := Quot(c, pa.w + pb.w);
      var correction := Scale(n, lambda);
      pa.positionX := Add(pa.positionX, Scale(correction, pa.w));
      pb.positionX := Sub(pb.positionX, Scale(correction, pb.w));
    }
    forall q | q in S
      ensures Snap(S)[q] == PairUpdate(lib, before, pa, pb, reach, gap)[q]
    {
    }
  }

  /** One distance solve, seen on the world. */
  method SolveDistance(lib: MathLib, constraint: C.DistanceConstraint, alpha: real, ghost S: set<Particle>)
    requires constraint.particleA in S && constraint.particleB in S
    modifies constraint.particleA, constraint.particleB
    ensures Snap(S) == C.DistanceSolved(lib, old(Snap(S)), constraint, alpha)
  {
    ghost var before := Snap(S);
    constraint.Solve(lib, alpha);
    C.DistanceSolvedAt(lib, before, constraint, alpha);
    forall q | q in S
      ensures Snap(S)[q] == C.DistanceSolved(lib, before, constraint, alpha)[q]
    {
    }
  }

  /** One root distance solve, seen on the world. */
  method SolveRoot(lib: MathLib, constraint: R.DistanceConstraint, ghost S: set<Particle>)
    requires constraint.particleA in S && constraint.particleB in S
    modifies constraint.particleA, constraint.particleB
    ensures Snap(S) == R.DistanceSolved(lib, old(Snap(S)), constraint)
  {
    ghost var before := Snap(S);
    constraint.Solve(lib);
    R.DistanceSolvedAt(lib, before, constraint);
    forall q | q in S
      ensures Snap(S)[q] == R.DistanceSolved(lib, before, constraint)[q]
    {
    }
  }

  /** Distance constraints solved in list order, each with α = stiffness/dts2. */
  method SolveDistanceConstraints(lib: MathLib, cs: seq<C.DistanceConstraint>, dts2: real, ghost S: set<Particle>)
    requires Endpoints(cs) <= S
    modifies Endpoints(cs)
    ensures Snap(S) == ConstraintPass(lib, cs, dts2, old(Snap(S)))
  {
    ghost var W0 := Snap(S);
    var i := 0;
    while i < |cs|
      invariant 0 <= i <= |cs|
      invariant Snap(S) == ConstraintPass(lib, cs[..i], dts2, W0)
    {
      var constraint := cs[i];
      ghost var before := Snap(S);
      var alpha := Quot(constraint.stiffness, dts2);
      SolveDistance(lib, constraint, alpha, S);
      ConstraintPassStep(lib, cs, i, dts2, W0, before, Snap(S));
      i := i + 1;
    }
    assert cs[..|cs|] == cs;
  }

  /** Root distance constraints solved in list order. */
  method SolveRootConstraints(lib: MathLib, cs: seq<R.DistanceConstraint>, ghost S: set<Particle>)
    requires RootEndpoints(cs) <= S
    modifies RootEndpoints(cs)
    ensures Snap(S) == RootPass(lib, cs, old(Snap(S)))
  {
    ghost var W0 := Snap(S);
    var i := 0;
    while i < |cs|
      invariant 0 <= i <= |cs|
      invariant Snap(S) == RootPass(lib, cs[..i], W0)
    {
      var constraint := cs[i];
      ghost var before := Snap(S);
      SolveRoot(lib, constraint, S);
      RootPassStep(lib, cs, i, W0, before, Snap(S));
      i := i + 1;
    }
    assert cs[..|cs|] == cs;
  }

  /** solveConstraints: the distance constraints in list order, then the
      volume constraints in list order. */
  method SolveConstraintLists(lib: MathLib, cs: seq<C.DistanceConstraint>, dts2: real, vcs: seq<C.VolumeConstraint>,
                              respond: C.VolumeResponse, ghost S: set<Particle>)
    requires Endpoints(cs) <= S && VolumeMembers(vcs) <= S
    modifies Endpoints(cs), VolumeMembers(vcs)
    ensures Snap(S) == VolumePass(vcs, respond, ConstraintPass(lib, cs, dts2, old(Snap(S))))
  {
    SolveDistanceConstraints(lib, cs, dts2, S);
    SolveVolumeConstraints(vcs, respond, S);
  }

  /** Volume constraints solved in list order. */
  method SolveVolumeConstraints(vcs: seq<C.VolumeConstraint>, respond: C.VolumeResponse, ghost S: set<Particle>)
    requires VolumeMembers(vcs) <= S
    modifies VolumeMembers(vcs)
    ensures Snap(S) == VolumePass(vcs, respond, old(Snap(S)))
  {
    ghost var W0 := Snap(S);
    var i := 0;
    while i < |vcs|
      invariant 0 <= i <= |vcs|
      invariant Snap(S) == VolumePass(vcs[..i], respond, W0)
    {
      ghost var before := Snap(S);
      assert Members(vcs[i].particles) <= VolumeMembers(vcs);
      SolveVolume(vcs[i], respond, S);
      VolumePassStep(vcs, i, respond, W0, before, Snap(S));
      i := i + 1;
    }
    assert vcs[..|vcs|] == vcs;
  }

  /** One volume solve, seen on the world. */
  method SolveVolume(constraint: C.VolumeConstraint, respond: C.VolumeResponse, ghost S: set<Particle>)
    requires Members(constraint.particles) <= S
    modifies Members(constraint.particles)
    ensures Snap(S) == C.VolumeSolved(old(Snap(S)), constraint, respond)
  {
    ghost var before := Snap(S);
    ghost var local := Snap(Members(constraint.particles));
    constraint.Solve(respond);
    C.VolumeSolvedLocal(before, local, constraint, respond);
    forall q | q in S
      ensures Snap(S)[q] == C.VolumeSolved(before, constraint, respond)[q]
    {
      if q in Members(constraint.particles) {
        assert Snap(S)[q] == Snap(Members(constraint.particles))[q];
      }
    }
  }
}
