/** The per-particle arithmetic of one substep, as values: explicit Euler
    integration and velocity reconstruction, the canvas clamp, the pairwise
    separation, and the position corrections of the distance and mouse
    constraints. The solver classes apply these to particle fields. */
module Corrections {
  import opened Wrappers
  import opened Vectors
  import opened Particles

  // ---------------------------------------------------------------------
  // integrate / updateVelocities

  /** gravity.scaled(m).scaled(w): the force divided by the mass. */
  function Acceleration(gravity: Vec, m: real, w: real): Vec
  {
    Scale(Scale(gravity, m), w)
  }

  /** One integration step with time step h = dts·multiplier: the velocity
      gains acceleration·h, positionP takes the pre-step positionX, and
      positionX advances by the new velocity·h. */
  function Integrated(b: Body, m: real, w: real, gravity: Vec, h: real): Body
  {
    var v := Add(b.v, Scale(Acceleration(gravity, m, w), h));
    Body(Add(b.x, Scale(v, h)), b.x, v)
  }

  /** Velocity reconstruction: (positionX − positionP) divided by h. */
  function Reconstructed(b: Body, h: real): Body
  {
    b.(v := DivVec(Sub(b.x, b.p), h))
  }

  /** For a particle with mass, force·w is gravity itself; a pinned particle
      (w = 0) gains no velocity. */
  lemma AccelerationOfMass(gravity: Vec, m: real)
    ensures m != 0.0 ==> Acceleration(gravity, m, InverseMass(m)) == gravity
    ensures Acceleration(gravity, m, 0.0) == Zero
  {
    if m != 0.0 {
      var w := InverseMass(m);
      assert gravity.x * m * w == gravity.x * (w * m);
      assert gravity.y * m * w == gravity.y * (w * m);
    }
  }

  /** integrate: positionP becomes the pre-step positionX, positionX moves by
      exactly velocity·h, and with w = 0 the velocity is unchanged. */
  lemma IntegratedMeaning(b: Body, m: real, w: real, gravity: Vec, h: real)
    ensures var r := Integrated(b, m, w, gravity, h);
      r.p == b.x && Sub(r.x, r.p) == Scale(r.v, h) &&
      (w == 0.0 ==> r.v == b.v)
  {
    var r := Integrated(b, m, w, gravity, h);
    assert Sub(Add(b.x, Scale(r.v, h)), b.x) == Scale(r.v, h);
  }

  /** The velocity round trip: when nothing moves positionX between
      integrate and updateVelocities, and both use the same nonzero h, the
      reconstructed velocity is the one integrate computed, and the
      positions are unchanged. */
  lemma VelocityRoundTrip(b: Body, m: real, w: real, gravity: Vec, h: real)
    requires h != 0.0
    ensures Reconstructed(Integrated(b, m, w, gravity, h), h) == Integrated(b, m, w, gravity, h)
  {
    var r := Integrated(b, m, w, gravity, h);
    IntegratedMeaning(b, m, w, gravity, h);
    ScaleDivides(r.v, h);
  }

  lemma ScaleDivides(v: Vec, h: real)
    requires h != 0.0
    ensures DivVec(Scale(v, h), h) == v
  {
    assert (v.x * h) / h == v.x;
    assert (v.y * h) / h == v.y;
  }

  /** When integration uses h = dts·multiplier and reconstruction divides by
      dts·100, the round trip holds exactly when multiplier is 100 or the
      velocity is zero. */
  lemma MismatchedRoundTrip(b: Body, m: real, w: real, gravity: Vec, dts: real, multiplier: real)
    requires dts != 0.0
    ensures var r := Integrated(b, m, w, gravity, dts * multiplier);
      Reconstructed(r, dts * 100.0).v == r.v <==> multiplier == 100.0 || r.v == Zero
  {
    var r := Integrated(b, m, w, gravity, dts * multiplier);
    IntegratedMeaning(b, m, w, gravity, dts * multiplier);
    assert Reconstructed(r, dts * 100.0).v == DivVec(Scale(r.v, dts * multiplier), dts * 100.0);
    ScaledQuotient(r.v, dts, multiplier);
    ScaleFixedPoint(r.v, multiplier / 100.0);
  }

  lemma ScaledQuotient(v: Vec, dts: real, multiplier: real)
    requires dts != 0.0
    ensures DivVec(Scale(v, dts * multiplier), dts * 100.0) == Scale(v, multiplier / 100.0)
  {
    assert (v.x * (dts * multiplier)) / (dts * 100.0) == v.x * (multiplier / 100.0);
    assert (v.y * (dts * multiplier)) / (dts * 100.0) == v.y * (multiplier / 100.0);
  }

  /** Scaling by k fixes v exactly when k is 1 or v is zero. */
  lemma ScaleFixedPoint(v: Vec, k: real)
    ensures Scale(v, k) == v <==> k == 1.0 || v == Zero
  {
    if v != Zero && Scale(v, k) == v {
      if v.x != 0.0 {
        assert v.x * k == v.x * 1.0;
      } else {
        assert v.y * k == v.y * 1.0;
      }
    }
  }

  // ---------------------------------------------------------------------
  // boundaryCollision: the canvas clamp

  /** The x clamp: first against the right wall, then against the left. */
  function ClampX(x: real, radius: real, width: real): real
  {
    var x1 := if x > width - radius then width - radius else x;
    if x1 < radius then radius else x1
  }

  /** The y clamp against the top wall. */
  function ClampY(y: real, radius: real): real
  {
    if y < radius then radius else y
  }

  function Clamped(x: Vec, radius: real, width: real): Vec
  {
    Vec(ClampX(x.x, radius, width), ClampY(x.y, radius))
  }

  /** After the clamp the particle is at least a radius from the left and
      top walls, and at least a radius from the right wall when the canvas
      is wide enough for it; a position already within those bounds is
      left where it is, so the clamp is idempotent. */
  lemma ClampedMeaning(x: Vec, radius: real, width: real)
    ensures Clamped(x, radius, width).x >= radius
    ensures width >= 2.0 * radius ==> Clamped(x, radius, width).x <= width - radius
    ensures Clamped(x, radius, width).y >= radius
    ensures radius <= x.x <= width - radius && radius <= x.y ==> Clamped(x, radius, width) == x
    ensures Clamped(Clamped(x, radius, width), radius, width) == Clamped(x, radius, width)
  {
  }

  /** The floor test: below the floor line height − radius. */
  predicate BelowFloor(x: Vec, radius: real, height: real)
  {
    x.y > height - radius
  }

  /** The floor contact point: positionP's x on the floor line. */
  function FloorPoint(b: Body, radius: real, height: real): Vec
  {
    Vec(b.p.x, height - radius)
  }

  /** The floor normal, pointing up the canvas. */
  const FloorNormal: Vec := Vec(0.0, -1.0)

  // ---------------------------------------------------------------------
  // checkParticleCollision: pairwise separation

  /** The shared correction n·λ for an overlapping pair, with
      λ = (dist − gap)/(wa + wb); None when the pair is at least `reach`
      apart. The solvers use reach = gap = 2·radius, except the legacy loop,
      which tests against the first particle's own radius. */
  function PairCorrection(lib: MathLib, xa: Vec, xb: Vec, wa: real, wb: real, reach: real, gap: real): Option<Vec>
  {
    var d := Sub(xb, xa);
    var dist := Length(lib, d);
    if dist < reach then Some(Scale(Normalized(lib, d), Quot(dist - gap, wa + wb))) else None
  }

  /** The first particle moves along the correction weighted by its inverse
      mass; the second moves against it. */
  function PushA(xa: Vec, correction: Vec, wa: real): Vec { Add(xa, Scale(correction, wa)) }

  function PushB(xb: Vec, correction: Vec, wb: real): Vec { Sub(xb, Scale(correction, wb)) }

  /** The gap between two particles after they are pushed apart by k·n
      weighted by wa and wb. */
  lemma PushedGap(xa: Vec, xb: Vec, n: Vec, k: real, wa: real, wb: real)
    ensures Sub(PushB(xb, Scale(n, k), wb), PushA(xa, Scale(n, k), wa))
         == Sub(Sub(xb, xa), Scale(n, k * (wa + wb)))
  {
  }

  /** With a sound sqrt a vector is its direction times its length; for the
      zero vector both sides are zero. */
  lemma DirectionTimesLength(lib: MathLib, d: Vec)
    requires Sound(lib)
    ensures Scale(Normalized(lib, d), Length(lib, d)) == d
  {
    if d != Zero {
      NormalizedTimesLength(lib, d);
    } else {
      LengthFacts(lib, d);
    }
  }

  lemma ScaleDifference(n: Vec, a: real, b: real)
    ensures Sub(Scale(n, a), Scale(n, b)) == Scale(n, a - b)
  {
  }

  /** After the correction of an overlapping pair at positive distance with
      wa + wb ≠ 0, xb − xa is exactly gap·n: the two are `gap` apart along
      the old direction. A particle with w = 0 does not move, and a pair
      that is not overlapping gets no correction. */
  lemma PairCorrectionMeaning(lib: MathLib, xa: Vec, xb: Vec, wa: real, wb: real, reach: real, gap: real)
    requires Sound(lib)
    ensures var d := Sub(xb, xa);
      PairCorrection(lib, xa, xb, wa, wb, reach, gap).None? <==> Length(lib, d) >= reach
    ensures var d, c := Sub(xb, xa), PairCorrection(lib, xa, xb, wa, wb, reach, gap);
      c.Some? && d != Zero && wa + wb != 0.0 ==>
        Sub(PushB(xb, c.value, wb), PushA(xa, c.value, wa)) == Scale(Normalized(lib, d), gap) &&
        (0.0 <= gap ==> Length(lib, Sub(PushB(xb, c.value, wb), PushA(xa, c.value, wa))) == gap)
    ensures var c := PairCorrection(lib, xa, xb, wa, wb, reach, gap);
      c.Some? ==> (wa == 0.0 ==> PushA(xa, c.value, wa) == xa) && (wb == 0.0 ==> PushB(xb, c.value, wb) == xb)
  {
    var d := Sub(xb, xa);
    var c := PairCorrection(lib, xa, xb, wa, wb, reach, gap);
    if c.Some? && d != Zero && wa + wb != 0.0 {
      PairPushGap(lib, xa, xb, wa, wb, gap);
      LengthAlongDirection(lib, d, gap);
    }
  }

  /** The pair correction for gap moves xb − xa to gap times the old
      direction. */
  lemma PairPushGap(lib: MathLib, xa: Vec, xb: Vec, wa: real, wb: real, gap: real)
    requires Sound(lib) && wa + wb != 0.0
    ensures var d := Sub(xb, xa);
      var corr := Scale(Normalized(lib, d), Quot(Length(lib, d) - gap, wa + wb));
      Sub(PushB(xb, corr, wb), PushA(xa, corr, wa)) == Scale(Normalized(lib, d), gap)
  {
    var d := Sub(xb, xa);
    var n := Normalized(lib, d);
    var dist := Length(lib, d);
    var k := Quot(dist - gap, wa + wb);
    PushedGap(xa, xb, n, k, wa, wb);
    assert k * (wa + wb) == dist - gap;
    DirectionTimesLength(lib, d);
    ScaleDifference(n, dist, dist - gap);
    assert dist - (dist - gap) == gap;
  }

  // ---------------------------------------------------------------------
  // DistanceConstraint.solve

  /** The correction n·λ of a distance constraint, with c = |xb − xa| − rest
      and λ = c/(wa + wb + α). */
  function DistanceCorrection(lib: MathLib, xa: Vec, xb: Vec, wa: real, wb: real, rest: real, alpha: real): Vec
  {
    var d := Sub(xb, xa);
    Scale(Normalized(lib, d), Quot(Length(lib, d) - rest, wa + wb + alpha))
  }

  /** A constraint from a particle to itself has no direction, so its
      correction is the zero vector and moves nothing. */
  lemma SelfCorrectionInert(lib: MathLib, x: Vec, wa: real, wb: real, rest: real, alpha: real)
    ensures DistanceCorrection(lib, x, x, wa, wb, rest, alpha) == Zero
  {
    assert Sub(x, x) == Zero;
    assert Normalized(lib, Zero) == Zero;
  }

  /** Pushing by the zero correction moves nothing. */
  lemma PushZero(x: Vec, w: real)
    ensures GuardedPushA(x, Zero, w) == x && GuardedPushB(x, Zero, w) == x
  {
    assert Scale(Zero, w) == Zero;
  }

  /** Pushing one particle of a world by the zero correction leaves the
      world as it is. */
  lemma ZeroPushWorld(W: World, p: Particle, w: real)
    requires p in W
    ensures W[p := W[p].(x := GuardedPushA(W[p].x, Zero, w))] == W
    ensures W[p := W[p].(x := GuardedPushB(W[p].x, Zero, w))] == W
  {
    PushZero(W[p].x, w);
    assert W[p].(x := W[p].x) == W[p];
    MapUpdateSame(W, p);
  }

  /** A particle is moved only when its inverse mass is nonzero. */
  function GuardedPushA(xa: Vec, correction: Vec, wa: real): Vec
  {
    if wa != 0.0 then PushA(xa, correction, wa) else xa
  }

  function GuardedPushB(xb: Vec, correction: Vec, wb: real): Vec
  {
    if wb != 0.0 then PushB(xb, correction, wb) else xb
  }

  /** The guards change nothing arithmetically: a zero weight moves by zero. */
  lemma GuardsAreNeutral(x: Vec, correction: Vec, w: real)
    ensures GuardedPushA(x, correction, w) == PushA(x, correction, w)
    ensures GuardedPushB(x, correction, w) == PushB(x, correction, w)
  {
  }

  /** The signed distance after a solve: the old distance L less λ·weight,
      with λ = (L − rest)/(weight + α). */
  function GapAfter(L: real, rest: real, weight: real, alpha: real): real
  {
    L - Quot(L - rest, weight + alpha) * weight
  }

  /** After a distance solve, xb − xa points the old way and has signed
      length L − λ·(wa + wb), where L is the old distance. */
  lemma DistanceSolveGap(lib: MathLib, xa: Vec, xb: Vec, wa: real, wb: real, rest: real, alpha: real)
    requires Sound(lib)
    ensures var d := Sub(xb, xa);
      var corr := DistanceCorrection(lib, xa, xb, wa, wb, rest, alpha);
      Sub(GuardedPushB(xb, corr, wb), GuardedPushA(xa, corr, wa))
        == Scale(Normalized(lib, d), GapAfter(Length(lib, d), rest, wa + wb, alpha))
  {
    var d := Sub(xb, xa);
    var n := Normalized(lib, d);
    var k := Quot(Length(lib, d) - rest, wa + wb + alpha);
    GuardsAreNeutral(xa, Scale(n, k), wa);
    GuardsAreNeutral(xb, Scale(n, k), wb);
    PushedGap(xa, xb, n, k, wa, wb);
    DirectionTimesLength(lib, d);
    ScaleDifference(n, Length(lib, d), k * (wa + wb));
  }

  /** With α = 0 and wa + wb ≠ 0 a solve restores the rest length exactly
      (for a non-degenerate pair and a non-negative rest length). */
  lemma DistanceSolveRigid(lib: MathLib, xa: Vec, xb: Vec, wa: real, wb: real, rest: real)
    requires Sound(lib) && wa + wb != 0.0 && xa != xb && 0.0 <= rest
    ensures var corr := DistanceCorrection(lib, xa, xb, wa, wb, rest, 0.0);
      Length(lib, Sub(GuardedPushB(xb, corr, wb), GuardedPushA(xa, corr, wa))) == rest
  {
    DistanceSolveLength(lib, xa, xb, wa, wb, rest, 0.0);
    RigidFactor(Length(lib, Sub(xb, xa)), rest, wa + wb);
  }

  lemma RigidFactor(l: real, rest: real, weight: real)
    requires weight != 0.0
    ensures GapAfter(l, rest, weight, 0.0) == rest
  {
  }

  lemma SubNonZero(a: Vec, b: Vec)
    requires a != b
    ensures Sub(a, b) != Zero
  {
  }

  /** A multiple s of the direction of a non-zero vector has length |s|. */
  lemma LengthAlongDirection(lib: MathLib, d: Vec, s: real)
    requires Sound(lib) && d != Zero
    ensures Length(lib, Scale(Normalized(lib, d), s)) == Abs(s)
  {
    NormalizedTimesLength(lib, d);
    LengthAlongUnit(lib, Normalized(lib, d), s);
  }

  /** With α > 0 and non-negative inverse masses a solve never overshoots:
      the new violation is c·α/(wa + wb + α), which has the sign of the old
      violation c and is no larger in magnitude. */
  lemma DistanceSolveCompliant(lib: MathLib, xa: Vec, xb: Vec, wa: real, wb: real, rest: real, alpha: real)
    requires Sound(lib) && 0.0 < alpha && 0.0 <= wa && 0.0 <= wb && xa != xb && 0.0 <= rest
    ensures var corr := DistanceCorrection(lib, xa, xb, wa, wb, rest, alpha);
      var c := Length(lib, Sub(xb, xa)) - rest;
      var c' := Length(lib, Sub(GuardedPushB(xb, corr, wb), GuardedPushA(xa, corr, wa))) - rest;
      c' == c * alpha / (wa + wb + alpha) &&
      (0.0 <= c ==> 0.0 <= c' <= c) && (c <= 0.0 ==> c <= c' <= 0.0)
  {
    var L := Length(lib, Sub(xb, xa));
    var corr := DistanceCorrection(lib, xa, xb, wa, wb, rest, alpha);
    var len := Length(lib, Sub(GuardedPushB(xb, corr, wb), GuardedPushA(xa, corr, wa)));
    DistanceSolveLength(lib, xa, xb, wa, wb, rest, alpha);
    CompliantLength(L, rest, wa + wb, alpha, len);
    CompliantShrink(L - rest, len - rest, wa + wb, alpha);
  }

  /** After a solve of a non-degenerate pair the distance is the absolute
      value of the signed gap L − λ·(wa + wb). */
  lemma DistanceSolveLength(lib: MathLib, xa: Vec, xb: Vec, wa: real, wb: real, rest: real, alpha: real)
    requires Sound(lib) && xa != xb
    ensures 0.0 <= Length(lib, Sub(xb, xa))
    ensures var corr := DistanceCorrection(lib, xa, xb, wa, wb, rest, alpha);
      Length(lib, Sub(GuardedPushB(xb, corr, wb), GuardedPushA(xa, corr, wa)))
        == Abs(GapAfter(Length(lib, Sub(xb, xa)), rest, wa + wb, alpha))
  {
    var d := Sub(xb, xa);
    DistanceSolveGap(lib, xa, xb, wa, wb, rest, alpha);
    LengthFacts(lib, d);
    SubNonZero(xb, xa);
    LengthAlongDirection(lib, d, GapAfter(Length(lib, d), rest, wa + wb, alpha));
  }

  /** The signed gap after a compliant solve is the rest length plus the
      surviving fraction of the violation L − rest, and is never negative. */
  lemma CompliantLength(L: real, rest: real, weight: real, alpha: real, len: real)
    requires 0.0 < alpha && 0.0 <= weight && 0.0 <= L && 0.0 <= rest && len == Abs(GapAfter(L, rest, weight, alpha))
    ensures len - rest == (L - rest) * alpha / (weight + alpha)
  {
    CompliantFraction(L - rest, weight, alpha);
  }

  /** The fraction α/(W + α) of the violation that survives lies in (0, 1]:
      a violation c leaves c' = c·α/(W + α), of the same sign as c and no
      larger in magnitude. */
  lemma CompliantShrink(c: real, c': real, weight: real, alpha: real)
    requires 0.0 < alpha && 0.0 <= weight && c' == c * alpha / (weight + alpha)
    ensures c' == c * alpha / (weight + alpha) &&
      (0.0 <= c ==> 0.0 <= c' <= c) && (c <= 0.0 ==> c <= c' <= 0.0)
  {
    var f := alpha / (weight + alpha);
    assert 0.0 < f <= 1.0;
    assert c' == c * f;
    if 0.0 <= c {
      assert c * f <= c * 1.0;
    } else {
      assert c * 1.0 <= c * f;
    }
  }

  /** What survives of a violation c after the compliant correction. */
  lemma CompliantFraction(c: real, weight: real, alpha: real)
    requires 0.0 < alpha && 0.0 <= weight
    ensures c - Quot(c, weight + alpha) * weight == c * alpha / (weight + alpha)
    ensures 0.0 <= c ==> 0.0 <= c * alpha / (weight + alpha)
    ensures c <= 0.0 ==> c <= c * alpha / (weight + alpha)
  {
    var s := weight + alpha;
    assert c - (c / s) * weight == c * (s - weight) / s;
    CompliantShrink(c, c * alpha / s, weight, alpha);
  }


  // ---------------------------------------------------------------------
  // MouseDistanceConstraint.solve

  /** The particle moved by n·(c/α) toward the mouse, where c is its distance
      to the mouse; a pinned particle stays put. The size of the move does
      not involve the inverse mass. */
  function MouseStep(lib: MathLib, x: Vec, w: real, mouse: Vec, alpha: real): Vec
  {
    var d := Sub(mouse, x);
    if w != 0.0 then Add(x, Scale(Normalized(lib, d), Quot(Length(lib, d), alpha))) else x
  }

  /** A mouse solve with α ≠ 0 leaves the particle at distance |c − c/α|
      from the mouse, on the same ray; with α = 1 it lands exactly on the
      mouse. Any two nonzero inverse masses give the same move. */
  lemma MouseStepMeaning(lib: MathLib, x: Vec, w: real, w': real, mouse: Vec, alpha: real)
    requires Sound(lib) && w != 0.0
    ensures var c := Length(lib, Sub(mouse, x));
      Sub(mouse, MouseStep(lib, x, w, mouse, alpha)) == Scale(Normalized(lib, Sub(mouse, x)), c - Quot(c, alpha)) &&
      (x != mouse ==> Length(lib, Sub(mouse, MouseStep(lib, x, w, mouse, alpha))) == Abs(c - Quot(c, alpha)))
    ensures alpha == 1.0 ==> MouseStep(lib, x, w, mouse, alpha) == mouse
    ensures w' != 0.0 ==> MouseStep(lib, x, w', mouse, alpha) == MouseStep(lib, x, w, mouse, alpha)
  {
    var d := Sub(mouse, x);
    var n := Normalized(lib, d);
    var c := Length(lib, d);
    var k := Quot(c, alpha);
    DirectionTimesLength(lib, d);
    assert Sub(mouse, Add(x, Scale(n, k))) == Sub(d, Scale(n, k));
    ScaleDifference(n, c, k);
    if x != mouse {
      NormalizedTimesLength(lib, d);
      LengthAlongUnit(lib, n, c - k);
    }
    if alpha == 1.0 {
      assert c - k == 0.0;
    }
  }
}
