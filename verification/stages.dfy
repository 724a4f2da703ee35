/** The phases of a substep as functions on a World, the value snapshot of
    the particles' states. The solver classes update particle fields in
    place and are proved to leave the world these functions compute. */
module Stages {
  import opened Wrappers
  import opened Vectors
  import opened Particles
  import opened Corrections
  import opened Geometry
  import opened Polygons
  import C = Constraints
  import R = RootConstraints

  /** The canvas the boundary clamp reads. */
  datatype Canvas = Canvas(width: real, height: real)

  /** What a per-particle phase does to one particle. */
  type Step = (Particle, Body) -> Body

  /** A per-particle phase: `step` applied to each particle of the list in
      order, each time to the particle's current state. */
  function ForEach(ps: seq<Particle>, step: Step, W: World): (r: World)
    requires Members(ps) <= W.Keys
    ensures r.Keys == W.Keys
  {
    if ps == [] then W
    else
      var r := ForEach(ps[..|ps| - 1], step, W);
      var p := ps[|ps| - 1];
      r[p := step(p, r[p])]
  }

  /** One more particle of a per-particle phase. */
  lemma ForEachStep(ps: seq<Particle>, i: nat, step: Step, W: World, before: World, after: World)
    requires i < |ps| && Members(ps) <= W.Keys
    requires before == ForEach(ps[..i], step, W)
    requires after == before[ps[i] := step(ps[i], before[ps[i]])]
    ensures Members(ps[..i + 1]) <= W.Keys
    ensures after == ForEach(ps[..i + 1], step, W)
  {
    assert ps[..i + 1][..i] == ps[..i];
  }

  /** Over a list without repetitions a per-particle phase applies its step
      exactly once to every listed particle, to the state it had before the
      phase, and leaves every other particle alone. */
  lemma {:induction false} ForEachEffect(ps: seq<Particle>, step: Step, W: World)
    requires Members(ps) <= W.Keys && Distinct(ps)
    ensures forall i :: 0 <= i < |ps| ==> ForEach(ps, step, W)[ps[i]] == step(ps[i], W[ps[i]])
    ensures forall q :: q in W && q !in ps ==> ForEach(ps, step, W)[q] == W[q]
  {
    if ps != [] {
      var front := ps[..|ps| - 1];
      var p := ps[|ps| - 1];
      ForEachEffect(front, step, W);
      assert forall i :: 0 <= i < |front| ==> front[i] != p;
      assert p !in front;
    }
  }

  /** A phase whose step leaves every listed particle as it is changes
      nothing. */
  lemma {:induction false} ForEachFixed(ps: seq<Particle>, step: Step, W: World)
    requires Members(ps) <= W.Keys
    requires forall q :: q in ps ==> step(q, W[q]) == W[q]
    ensures ForEach(ps, step, W) == W
  {
    if ps != [] {
      ForEachFixed(ps[..|ps| - 1], step, W);
    }
  }

  // ---------------------------------------------------------------------
  // integrate and updateVelocities

  function IntegrateStep(gravity: Vec, h: real): Step
  {
    (p: Particle, b: Body) => Integrated(b, p.m, p.w, gravity, h)
  }

  function ReconstructStep(h: real): Step
  {
    (p: Particle, b: Body) => Reconstructed(b, h)
  }

  /** After an integrate phase every listed particle is in a state that
      velocity reconstruction with the same h leaves as it is. */
  lemma {:induction false} IntegratedStates(ps: seq<Particle>, gravity: Vec, h: real, W: World)
    requires Members(ps) <= W.Keys && h != 0.0
    ensures forall q :: q in ps ==>
      Reconstructed(ForEach(ps, IntegrateStep(gravity, h), W)[q], h) == ForEach(ps, IntegrateStep(gravity, h), W)[q]
  {
    if ps != [] {
      var front := ps[..|ps| - 1];
      var p := ps[|ps| - 1];
      IntegratedStates(front, gravity, h, W);
      var r := ForEach(front, IntegrateStep(gravity, h), W);
      VelocityRoundTrip(r[p], p.m, p.w, gravity, h);
      forall q | q in ps
        ensures Reconstructed(ForEach(ps, IntegrateStep(gravity, h), W)[q], h) == ForEach(ps, IntegrateStep(gravity, h), W)[q]
      {
        if q != p {
          assert q in front;
        }
      }
    }
  }

  /** The velocity round trip over a whole particle list: updateVelocities
      right after integrate, with the same nonzero h and nothing moving in
      between, gives back every velocity integrate computed and changes no
      position. */
  lemma IntegrateThenReconstruct(ps: seq<Particle>, gravity: Vec, h: real, W: World)
    requires Members(ps) <= W.Keys && h != 0.0
    ensures ForEach(ps, ReconstructStep(h), ForEach(ps, IntegrateStep(gravity, h), W)) == ForEach(ps, IntegrateStep(gravity, h), W)
  {
    IntegratedStates(ps, gravity, h, W);
    ForEachFixed(ps, ReconstructStep(h), ForEach(ps, IntegrateStep(gravity, h), W));
  }

  // ---------------------------------------------------------------------
  // boundaryCollision and checkPolygonCollision, per particle

  /** boundaryCollision on one particle: nothing without a canvas; otherwise
      the clamp, then, below the floor line, the floor contact solved with
      q = (positionP.x, height − radius) and n = (0, −1). */
  function BoundaryBody(canvas: Option<Canvas>, mu: real, respond: C.ContactResponse, p: Particle, b: Body): Body
  {
    match canvas
    case None => b
    case Some(cv) =>
      var clamped := b.(x := Clamped(b.x, p.radius, cv.width));
      if BelowFloor(clamped.x, p.radius, cv.height) then
        clamped.(x := respond(clamped, p.w, Some(FloorPoint(clamped, p.radius, cv.height)), Some(FloorNormal), mu))
      else clamped
  }

  /** boundaryCollision changes only positionX. Without a canvas it does
      nothing; when the clamped particle is above the floor line it ends
      within the clamp bounds; otherwise the floor contact is handed the
      contact point (positionP.x, height − radius) and the normal (0, −1). */
  lemma BoundaryBodyMeaning(canvas: Option<Canvas>, mu: real, respond: C.ContactResponse, p: Particle, b: Body)
    ensures var r := BoundaryBody(canvas, mu, respond, p, b);
      r.p == b.p && r.v == b.v && (canvas.None? ==> r == b)
    ensures canvas.Some? && !BelowFloor(Clamped(b.x, p.radius, canvas.value.width), p.radius, canvas.value.height) ==>
      var r := BoundaryBody(canvas, mu, respond, p, b);
      r.x.x >= p.radius && r.x.y >= p.radius &&
      (canvas.value.width >= 2.0 * p.radius ==> r.x.x <= canvas.value.width - p.radius)
    ensures canvas.Some? && BelowFloor(Clamped(b.x, p.radius, canvas.value.width), p.radius, canvas.value.height) ==>
      var clamped := b.(x := Clamped(b.x, p.radius, canvas.value.width));
      BoundaryBody(canvas, mu, respond, p, b).x
        == respond(clamped, p.w, Some(Vec(b.p.x, canvas.value.height - p.radius)), Some(Vec(0.0, -1.0)), mu)
  {
    if canvas.Some? {
      ClampedMeaning(b.x, p.radius, canvas.value.width);
    }
  }

  /** The placed vertex lists of the polygons. */
  function Shapes(polys: seq<Polygon>): (r: seq<seq<Vec>>)
    reads polys
    ensures |r| == |polys| && forall k :: 0 <= k < |polys| ==> r[k] == polys[k].transformedPoints
  {
    if polys == [] then [] else Shapes(polys[..|polys| - 1]) + [polys[|polys| - 1].transformedPoints]
  }

  /** The polygons are placed at the given vertex lists. */
  ghost predicate ShapesAre(polys: seq<Polygon>, shapes: seq<seq<Vec>>)
    reads polys
  {
    |polys| == |shapes| && forall k :: 0 <= k < |polys| ==> polys[k].transformedPoints == shapes[k]
  }

  /** checkPolygonCollision on one particle, over the first k polygons: for
      each polygon whose winding test contains the probe (positionX when
      `atX`, positionP otherwise), a contact with the nearest edge
      projection of positionP is solved. */
  function PolygonBody(lib: MathLib, shapes: seq<seq<Vec>>, atX: bool, mu: real, respond: C.ContactResponse, w: real, b: Body, k: nat): Body
    requires k <= |shapes|
  {
    if k == 0 then b
    else OnePolygon(lib, shapes[k - 1], atX, mu, respond, w, PolygonBody(lib, shapes, atX, mu, respond, w, b, k - 1))
  }

  /** What one polygon does to a particle's state. */
  function OnePolygon(lib: MathLib, shape: seq<Vec>, atX: bool, mu: real, respond: C.ContactResponse, w: real, b: Body): Body
  {
    var probe := if atX then b.x else b.p;
    if Inside(lib, shape, probe) then
      var contact := ContactOf(NearestUpTo(lib, shape, b.p, |shape|));
      b.(x := respond(b, w, contact.closestPoint, contact.normal, mu))
    else b
  }

  /** The polygon stage changes only positionX, and a particle that no
      polygon contains is left alone. */
  lemma {:induction false} PolygonBodyMeaning(lib: MathLib, shapes: seq<seq<Vec>>, atX: bool, mu: real, respond: C.ContactResponse, w: real, b: Body, k: nat)
    requires k <= |shapes|
    ensures var r := PolygonBody(lib, shapes, atX, mu, respond, w, b, k);
      r.p == b.p && r.v == b.v
    ensures (forall j :: 0 <= j < k ==> !Inside(lib, shapes[j], if atX then b.x else b.p)) ==>
      PolygonBody(lib, shapes, atX, mu, respond, w, b, k) == b
  {
    if k > 0 {
      PolygonBodyMeaning(lib, shapes, atX, mu, respond, w, b, k - 1);
    }
  }

  /** One particle's turn in handleCollisions: the boundary, then the
      polygons. */
  function CollisionStep(lib: MathLib, canvas: Option<Canvas>, shapes: seq<seq<Vec>>, atX: bool, mu: real, respond: C.ContactResponse): Step
  {
    (p: Particle, b: Body) => PolygonBody(lib, shapes, atX, mu, respond, p.w, BoundaryBody(canvas, mu, respond, p, b), |shapes|)
  }

  /** One particle's turn when only the boundary is handled. */
  function BoundaryStep(canvas: Option<Canvas>, mu: real, respond: C.ContactResponse): Step
  {
    (p: Particle, b: Body) => BoundaryBody(canvas, mu, respond, p, b)
  }

  // ---------------------------------------------------------------------
  // checkParticleCollision: the pair loop

  /** The pair correction of pa and pb applied to the world, in the order
      of the source's two assignments. */
  function PairUpdate(lib: MathLib, W: World, pa: Particle, pb: Particle, reach: real, gap: real): (r: World)
    requires pa in W && pb in W
    ensures r.Keys == W.Keys
  {
    match PairCorrection(lib, W[pa].x, W[pb].x, pa.w, pb.w, reach, gap)
    case None => W
    case Some(corr) =>
      var W1 := W[pa := W[pa].(x := PushA(W[pa].x, corr, pa.w))];
      W1[pb := W1[pb].(x := PushB(W1[pb].x, corr, pb.w))]
  }

  /** For two distinct particles the update is the pair correction: an
      overlapping pair at positive distance with some inverse mass ends
      exactly `gap` apart along its old direction, a particle with w = 0
      does not move, a pair at least `reach` apart is untouched, and no
      other particle moves. */
  lemma PairUpdateMeaning(lib: MathLib, W: World, pa: Particle, pb: Particle, reach: real, gap: real)
    requires Sound(lib) && pa in W && pb in W && pa != pb
    ensures var r := PairUpdate(lib, W, pa, pb, reach, gap);
      (forall q :: q in W && q != pa && q != pb ==> r[q] == W[q]) &&
      r[pa].p == W[pa].p && r[pa].v == W[pa].v && r[pb].p == W[pb].p && r[pb].v == W[pb].v &&
      (Length(lib, Sub(W[pb].x, W[pa].x)) >= reach ==> r == W) &&
      (pa.w == 0.0 ==> r[pa] == W[pa]) && (pb.w == 0.0 ==> r[pb] == W[pb])
    ensures var r := PairUpdate(lib, W, pa, pb, reach, gap);
      Length(lib, Sub(W[pb].x, W[pa].x)) < reach && W[pa].x != W[pb].x && pa.w + pb.w != 0.0 ==>
        Sub(r[pb].x, r[pa].x) == Scale(Normalized(lib, Sub(W[pb].x, W[pa].x)), gap) &&
        (0.0 <= gap ==> Length(lib, Sub(r[pb].x, r[pa].x)) == gap)
  {
    PairCorrectionMeaning(lib, W[pa].x, W[pb].x, pa.w, pb.w, reach, gap);
    if W[pa].x != W[pb].x {
      SubNonZero(W[pb].x, W[pa].x);
    }
  }

  /** The threshold of the overlap test: twice the solver's radius, or, in
      the legacy loop, twice the first particle's own radius. */
  function Reach(pa: Particle, ownReach: bool, radius: real): real
  {
    if ownReach then pa.radius * 2.0 else radius * 2.0
  }

  /** Pair visits (i, lo), (i, lo + 1), …, (i, hi − 1). */
  function RowPairs(i: nat, lo: nat, hi: nat): (r: seq<(nat, nat)>)
    ensures forall v :: v in r ==> v.0 == i && lo <= v.1 < hi
    decreases hi
  {
    if hi <= lo then [] else RowPairs(i, lo, hi - 1) + [(i, hi - 1)]
  }

  /** The visits of the double loop `for i < n, for j in i+1..n` over its
      first k rows. */
  function UpperPairs(n: nat, k: nat): (r: seq<(nat, nat)>)
    ensures InRange(r, n)
  {
    if k == 0 then [] else UpperPairs(n, k - 1) + RowPairs(k - 1, k, n)
  }

  /** Lexicographic order on visits. */
  predicate Before(x: (nat, nat), y: (nat, nat))
  {
    x.0 < y.0 || (x.0 == y.0 && x.1 < y.1)
  }

  lemma {:induction false} RowPairsMeaning(i: nat, lo: nat, hi: nat)
    ensures forall v :: v in RowPairs(i, lo, hi) <==> v.0 == i && lo <= v.1 < hi
    ensures forall k, l :: 0 <= k < l < |RowPairs(i, lo, hi)| ==> Before(RowPairs(i, lo, hi)[k], RowPairs(i, lo, hi)[l])
    decreases hi
  {
    if lo < hi {
      RowPairsMeaning(i, lo, hi - 1);
    }
  }

  lemma {:induction false} UpperPairsMeaning(n: nat, k: nat)
    ensures forall v :: v in UpperPairs(n, k) <==> v.0 < k && v.0 < v.1 < n
    ensures forall a, b :: 0 <= a < b < |UpperPairs(n, k)| ==> Before(UpperPairs(n, k)[a], UpperPairs(n, k)[b])
  {
    if k > 0 {
      UpperPairsMeaning(n, k - 1);
      RowPairsMeaning(k - 1, k, n);
      var front, row := UpperPairs(n, k - 1), RowPairs(k - 1, k, n);
      assert UpperPairs(n, k) == front + row;
      forall a, b | 0 <= a < b < |front + row|
        ensures Before((front + row)[a], (front + row)[b])
      {
        if b >= |front| && a < |front| {
          assert front[a] in front;
          assert row[b - |front|] in row;
        }
      }
    }
  }

  /** checkParticleCollision visits each unordered pair i < j of an
      n-particle list exactly once, row by row. */
  lemma UpperPairsExactlyOnce(n: nat)
    ensures forall i: nat, j: nat :: (i, j) in UpperPairs(n, n) <==> i < j < n
    ensures forall a, b :: 0 <= a < b < |UpperPairs(n, n)| ==> UpperPairs(n, n)[a] != UpperPairs(n, n)[b]
  {
    UpperPairsMeaning(n, n);
    forall i: nat, j: nat
      ensures (i, j) in UpperPairs(n, n) <==> i < j < n
    {
      var v := (i, j);
      assert v.0 == i && v.1 == j;
    }
  }

  /** Pair visits within a list of n particles. */
  predicate InRange(visits: seq<(nat, nat)>, n: nat)
  {
    forall v :: v in visits ==> v.0 < n && v.1 < n
  }

  /** The pair corrections of a visit sequence, applied in order. */
  function PairFold(lib: MathLib, ps: seq<Particle>, visits: seq<(nat, nat)>, ownReach: bool, radius: real, W: World): (r: World)
    requires InRange(visits, |ps|) && Members(ps) <= W.Keys
    ensures r.Keys == W.Keys
  {
    if visits == [] then W
    else
      var r := PairFold(lib, ps, visits[..|visits| - 1], ownReach, radius, W);
      var v := visits[|visits| - 1];
      PairUpdate(lib, r, ps[v.0], ps[v.1], Reach(ps[v.0], ownReach, radius), radius * 2.0)
  }

  /** One more visit at the end of the schedule. */
  lemma PairFoldSnoc(lib: MathLib, ps: seq<Particle>, visits: seq<(nat, nat)>, a: nat, b: nat, ownReach: bool, radius: real, W: World)
    requires InRange(visits, |ps|) && a < |ps| && b < |ps| && Members(ps) <= W.Keys
    ensures InRange(visits + [(a, b)], |ps|)
    ensures PairFold(lib, ps, visits + [(a, b)], ownReach, radius, W)
      == PairUpdate(lib, PairFold(lib, ps, visits, ownReach, radius, W), ps[a], ps[b], Reach(ps[a], ownReach, radius), radius * 2.0)
  {
    assert (visits + [(a, b)])[..|visits|] == visits;
  }

  /** One more visit of row i: the pair (i, j). */
  lemma RowStep(lib: MathLib, ps: seq<Particle>, i: nat, j: nat, ownReach: bool, radius: real, W: World, before: World, after: World)
    requires i < j < |ps| && Members(ps) <= W.Keys
    requires before == PairFold(lib, ps, RowPairs(i, i + 1, j), ownReach, radius, W)
    requires after == PairUpdate(lib, before, ps[i], ps[j], Reach(ps[i], ownReach, radius), radius * 2.0)
    ensures after == PairFold(lib, ps, RowPairs(i, i + 1, j + 1), ownReach, radius, W)
  {
    PairFoldSnoc(lib, ps, RowPairs(i, i + 1, j), i, j, ownReach, radius, W);
    assert RowPairs(i, i + 1, j + 1) == RowPairs(i, i + 1, j) + [(i, j)];
  }

  /** Running two schedules one after the other is running their
      concatenation. */
  lemma {:induction false} PairFoldAppend(lib: MathLib, ps: seq<Particle>, first: seq<(nat, nat)>, second: seq<(nat, nat)>, ownReach: bool, radius: real, W: World)
    requires InRange(first, |ps|) && InRange(second, |ps|) && Members(ps) <= W.Keys
    ensures InRange(first + second, |ps|)
    ensures PairFold(lib, ps, first + second, ownReach, radius, W)
      == PairFold(lib, ps, second, ownReach, radius, PairFold(lib, ps, first, ownReach, radius, W))
    decreases |second|
  {
    if second == [] {
      assert first + second == first;
    } else {
      var front := second[..|second| - 1];
      assert (first + second)[..|first + second| - 1] == first + front;
      assert (first + second)[|first + second| - 1] == second[|second| - 1];
      PairFoldAppend(lib, ps, first, front, ownReach, radius, W);
    }
  }

  /** The pair loop never moves a particle outside the list, and never
      changes positionP or a velocity. */
  lemma {:induction false} PairFoldFrame(lib: MathLib, ps: seq<Particle>, visits: seq<(nat, nat)>, ownReach: bool, radius: real, W: World)
    requires InRange(visits, |ps|) && Members(ps) <= W.Keys
    ensures var r := PairFold(lib, ps, visits, ownReach, radius, W);
      (forall q :: q in W && q !in ps ==> r[q] == W[q]) &&
      (forall q :: q in W ==> r[q].p == W[q].p && r[q].v == W[q].v)
  {
    if visits != [] {
      PairFoldFrame(lib, ps, visits[..|visits| - 1], ownReach, radius, W);
    }
  }

  // ---------------------------------------------------------------------
  // solveConstraints

  /** The particles a list of distance constraints can move. */
  function Endpoints(cs: seq<C.DistanceConstraint>): set<Particle>
  {
    (set c | c in cs :: c.particleA) + (set c | c in cs :: c.particleB)
  }

  /** The constraints solved in list order, each with α = stiffness/dts2. */
  function ConstraintPass(lib: MathLib, cs: seq<C.DistanceConstraint>, dts2: real, W: World): (r: World)
    requires Endpoints(cs) <= W.Keys
    ensures r.Keys == W.Keys
  {
    if cs == [] then W
    else
      var c := cs[|cs| - 1];
      C.DistanceSolved(lib, ConstraintPass(lib, cs[..|cs| - 1], dts2, W), c, Quot(c.stiffness, dts2))
  }

  /** One more constraint of the pass. */
  lemma ConstraintPassStep(lib: MathLib, cs: seq<C.DistanceConstraint>, i: nat, dts2: real, W: World, before: World, after: World)
    requires i < |cs| && Endpoints(cs) <= W.Keys
    requires before == ConstraintPass(lib, cs[..i], dts2, W)
    requires after == C.DistanceSolved(lib, before, cs[i], Quot(cs[i].stiffness, dts2))
    ensures Endpoints(cs[..i + 1]) <= W.Keys
    ensures after == ConstraintPass(lib, cs[..i + 1], dts2, W)
  {
    assert cs[..i + 1][..i] == cs[..i];
  }

  /** A constraint pass moves only positionX fields, and never moves a
      particle with w = 0. */
  lemma {:induction false} ConstraintPassKeepsPinned(lib: MathLib, cs: seq<C.DistanceConstraint>, dts2: real, W: World)
    requires Endpoints(cs) <= W.Keys
    ensures var r := ConstraintPass(lib, cs, dts2, W);
      (forall q :: q in W ==> r[q].p == W[q].p && r[q].v == W[q].v) &&
      (forall q :: q in W && q.w == 0.0 ==> r[q] == W[q])
  {
    if cs != [] {
      ConstraintPassKeepsPinned(lib, cs[..|cs| - 1], dts2, W);
    }
  }

  function RootEndpoints(cs: seq<R.DistanceConstraint>): set<Particle>
  {
    (set c | c in cs :: c.particleA) + (set c | c in cs :: c.particleB)
  }

  /** Root distance constraints solved in list order, each with its stored α. */
  function RootPass(lib: MathLib, cs: seq<R.DistanceConstraint>, W: World): (r: World)
    requires RootEndpoints(cs) <= W.Keys
    ensures r.Keys == W.Keys
  {
    if cs == [] then W
    else R.DistanceSolved(lib, RootPass(lib, cs[..|cs| - 1], W), cs[|cs| - 1])
  }

  /** One more root constraint of the pass. */
  lemma RootPassStep(lib: MathLib, cs: seq<R.DistanceConstraint>, i: nat, W: World, before: World, after: World)
    requires i < |cs| && RootEndpoints(cs) <= W.Keys
    requires before == RootPass(lib, cs[..i], W)
    requires after == R.DistanceSolved(lib, before, cs[i])
    ensures RootEndpoints(cs[..i + 1]) <= W.Keys
    ensures after == RootPass(lib, cs[..i + 1], W)
  {
    assert cs[..i + 1][..i] == cs[..i];
  }

  /** A root constraint pass moves only positionX fields, and never moves
      a particle with w = 0. */
  lemma {:induction false} RootPassKeepsPinned(lib: MathLib, cs: seq<R.DistanceConstraint>, W: World)
    requires RootEndpoints(cs) <= W.Keys
    ensures var r := RootPass(lib, cs, W);
      (forall q :: q in W ==> r[q].p == W[q].p && r[q].v == W[q].v) &&
      (forall q :: q in W && q.w == 0.0 ==> r[q] == W[q])
  {
    if cs != [] {
      RootPassKeepsPinned(lib, cs[..|cs| - 1], W);
    }
  }

  function VolumeMembers(vcs: seq<C.VolumeConstraint>): set<Particle>
  {
    set vc, p | vc in vcs && p in vc.particles :: p
  }

  /** One more volume constraint of the pass. */
  lemma VolumePassStep(vcs: seq<C.VolumeConstraint>, i: nat, respond: C.VolumeResponse, W: World, before: World, after: World)
    requires i < |vcs| && VolumeMembers(vcs) <= W.Keys && Members(vcs[i].particles) <= before.Keys
    requires before == VolumePass(vcs[..i], respond, W)
    requires after == C.VolumeSolved(before, vcs[i], respond)
    ensures VolumeMembers(vcs[..i + 1]) <= W.Keys
    ensures after == VolumePass(vcs[..i + 1], respond, W)
  {
    assert vcs[..i + 1][..i] == vcs[..i];
  }

  /** Volume constraints solved in list order. */
  function VolumePass(vcs: seq<C.VolumeConstraint>, respond: C.VolumeResponse, W: World): (r: World)
    requires VolumeMembers(vcs) <= W.Keys
    ensures r.Keys == W.Keys
  {
    if vcs == [] then W
    else
      var vc := vcs[|vcs| - 1];
      assert Members(vc.particles) <= VolumeMembers(vcs);
      C.VolumeSolved(VolumePass(vcs[..|vcs| - 1], respond, W), vc, respond)
  }
}
