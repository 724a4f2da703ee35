/** The box and rope factories of the scenes built over root distance
    constraints (Scene.js and sceneConfig.js). Both files append the same
    particles and constraints in the same order; here the lists are values
    handed in and handed back, each constraint built with the scene's dts. */
module SceneFactories {
  import opened Vectors
  import opened Particles
  import opened Configs
  import R = RootConstraints

  /** The local vertices the polygons of every hard-coded scene share: a
      300 × 300 square with one corner at the origin. */
  const Square: seq<Vec> := [Vec(0.0, 0.0), Vec(300.0, 0.0), Vec(300.0, 300.0), Vec(0.0, 300.0)]

  /** Constraint c joins a to b, its compliance built from the given
      stiffness and dts (α·dts = stiffness). */
  predicate Joins(c: R.DistanceConstraint, a: Particle, b: Particle, stiffness: real, dts: real)
  {
    c.particleA == a && c.particleB == b && c.alpha * dts == stiffness
  }

  /** Constraint k0 + i of cs joins particle start + i of ps to particle
      start + i + 1. */
  predicate ChainJoins(cs: seq<R.DistanceConstraint>, ps: seq<Particle>, k0: nat, start: nat, i: nat, stiffness: real, dts: real)
  {
    k0 + i < |cs| && start + i + 1 < |ps| && Joins(cs[k0 + i], ps[start + i], ps[start + i + 1], stiffness, dts)
  }

  lemma ChainJoinsExtend(cs: seq<R.DistanceConstraint>, more: seq<R.DistanceConstraint>, ps: seq<Particle>, k0: nat, start: nat, i: nat, stiffness: real, dts: real)
    requires k0 + i < |cs|
    ensures ChainJoins(cs + more, ps, k0, start, i, stiffness, dts) == ChainJoins(cs, ps, k0, start, i, stiffness, dts)
  {
    assert (cs + more)[k0 + i] == cs[k0 + i];
  }

  /** The four corners of a box with (x, y) top left and side `space` sit
      at particles start .. start + 3 of ps, with the given mass and radius. */
  ghost predicate BoxCorners(ps: seq<Particle>, start: nat, x: real, y: real, space: real, mass: real, radius: real)
    reads ps
  {
    PlacedAt(ps, start, Vec(x, y), mass, radius) && PlacedAt(ps, start + 1, Vec(x + space, y), mass, radius) &&
    PlacedAt(ps, start + 2, Vec(x, y + space), mass, radius) && PlacedAt(ps, start + 3, Vec(x + space, y + space), mass, radius)
  }

  /** Constraints k0 .. k0 + 5 of cs join the box corners from start on,
      one per pair, in the order of BoxLinks. */
  predicate BoxJoins(cs: seq<R.DistanceConstraint>, ps: seq<Particle>, k0: nat, start: nat, stiffness: real, dts: real)
  {
    k0 + 6 <= |cs| && start + 4 <= |ps| &&
    forall k :: 0 <= k < 6 ==> Joins(cs[k0 + k], ps[start + BoxLinks[k].0], ps[start + BoxLinks[k].1], stiffness, dts)
  }

  /** A list built by appending new particles to a list of distinct ones
      keeps them distinct. */
  lemma DistinctSnoc(ps: seq<Particle>, p: Particle)
    requires Distinct(ps) && p !in ps
    ensures Distinct(ps + [p])
  {
  }

  /** createBox2x2: four new particles at the corners of the square of side
      `space` with (x, y) top left, and six new constraints, one for every
      pair of them, in the order of BoxLinks. */
  method CreateBox2x2(lib: MathLib, particles: seq<Particle>, constraints: seq<R.DistanceConstraint>,
                      x: real, y: real, space: real, stiffness: real, mass: real, radius: real, dts: real)
    returns (ps: seq<Particle>, cs: seq<R.DistanceConstraint>)
    requires dts != 0.0
    ensures |ps| == |particles| + 4 && ps[..|particles|] == particles
    ensures forall k :: |particles| <= k < |ps| ==> fresh(ps[k])
    ensures Distinct(particles) ==> Distinct(ps)
    ensures BoxCorners(ps, |particles|, x, y, space, mass, radius)
    ensures |cs| == |constraints| + 6 && cs[..|constraints|] == constraints
    ensures BoxJoins(cs, ps, |constraints|, |particles|, stiffness, dts)
  {
    ps := BoxParticles(particles, x, y, space, mass, radius);
    cs := BoxConstraints(lib, constraints, ps, |particles|, stiffness, dts);
  }

  /** The four corner particles of createBox2x2. */
  method BoxParticles(particles: seq<Particle>, x: real, y: real, space: real, mass: real, radius: real)
    returns (ps: seq<Particle>)
    ensures |ps| == |particles| + 4 && ps[..|particles|] == particles
    ensures forall k :: |particles| <= k < |ps| ==> fresh(ps[k])
    ensures Distinct(particles) ==> Distinct(ps)
    ensures BoxCorners(ps, |particles|, x, y, space, mass, radius)
  {
    var p0 := new Particle(x, y, mass, radius);
    var p1 := new Particle(x + space, y, mass, radius);
    var p2 := new Particle(x, y + space, mass, radius);
    var p3 := new Particle(x + space, y + space, mass, radius);
    ps := particles + [p0, p1, p2, p3];
    assert ps[..|particles|] == particles;
  }

  /** `new DistanceConstraint(a, b, stiffness, dts)`. */
  method Join(lib: MathLib, a: Particle, b: Particle, stiffness: real, dts: real) returns (c: R.DistanceConstraint)
    requires dts != 0.0
    ensures fresh(c) && Joins(c, a, b, stiffness, dts)
  {
    c := new R.DistanceConstraint(lib, a, b, stiffness, dts);
  }

  /** The six constraints of createBox2x2 over the corners from start on. */
  method BoxConstraints(lib: MathLib, constraints: seq<R.DistanceConstraint>, ps: seq<Particle>, start: nat, stiffness: real, dts: real)
    returns (cs: seq<R.DistanceConstraint>)
    requires dts != 0.0 && start + 4 <= |ps|
    ensures |cs| == |constraints| + 6 && cs[..|constraints|] == constraints
    ensures BoxJoins(cs, ps, |constraints|, start, stiffness, dts)
  {
    var c0 := Join(lib, ps[start], ps[start + 1], stiffness, dts);
    var c1 := Join(lib, ps[start], ps[start + 2], stiffness, dts);
    var c2 := Join(lib, ps[start + 1], ps[start + 3], stiffness, dts);
    var c3 := Join(lib, ps[start + 2], ps[start + 3], stiffness, dts);
    var c4 := Join(lib, ps[start], ps[start + 3], stiffness, dts);
    var c5 := Join(lib, ps[start + 1], ps[start + 2], stiffness, dts);
    cs := constraints + [c0, c1, c2, c3, c4, c5];
    assert cs[..|constraints|] == constraints;
    var k0 := |constraints|;
    assert cs[k0] == c0 && cs[k0 + 1] == c1 && cs[k0 + 2] == c2 && cs[k0 + 3] == c3 && cs[k0 + 4] == c4 && cs[k0 + 5] == c5;
    BoxJoinsIntro(cs, ps, k0, start, stiffness, dts);
  }

  lemma BoxJoinsIntro(cs: seq<R.DistanceConstraint>, ps: seq<Particle>, k0: nat, start: nat, stiffness: real, dts: real)
    requires k0 + 6 <= |cs| && start + 4 <= |ps|
    requires Joins(cs[k0], ps[start], ps[start + 1], stiffness, dts)
    requires Joins(cs[k0 + 1], ps[start], ps[start + 2], stiffness, dts)
    requires Joins(cs[k0 + 2], ps[start + 1], ps[start + 3], stiffness, dts)
    requires Joins(cs[k0 + 3], ps[start + 2], ps[start + 3], stiffness, dts)
    requires Joins(cs[k0 + 4], ps[start], ps[start + 3], stiffness, dts)
    requires Joins(cs[k0 + 5], ps[start + 1], ps[start + 2], stiffness, dts)
    ensures BoxJoins(cs, ps, k0, start, stiffness, dts)
  {
    forall k | 0 <= k < 6
      ensures Joins(cs[k0 + k], ps[start + BoxLinks[k].0], ps[start + BoxLinks[k].1], stiffness, dts)
    {
      if k == 0 { } else if k == 1 { } else if k == 2 { } else if k == 3 { } else if k == 4 { } else { }
    }
  }

  /** createRope: `number` new particles from (x, y) along y = const,
      `space` apart, the first and the last pinned (mass 0), and
      RopeLinks(number) new constraints joining each to the next. */
  method CreateRope(lib: MathLib, particles: seq<Particle>, constraints: seq<R.DistanceConstraint>,
                    x: real, y: real, number: nat, space: real, stiffness: real, mass: real, radius: real, dts: real)
    returns (ps: seq<Particle>, cs: seq<R.DistanceConstraint>)
    requires dts != 0.0
    ensures |ps| == |particles| + number && ps[..|particles|] == particles
    ensures forall k :: |particles| <= k < |ps| ==> fresh(ps[k])
    ensures Distinct(particles) ==> Distinct(ps)
    ensures forall i :: 0 <= i < number ==> RopeAt(ps, |particles|, i, x, y, number, space, mass, radius)
    ensures |cs| == |constraints| + RopeLinks(number) && cs[..|constraints|] == constraints
    ensures forall i :: 0 <= i < RopeLinks(number) ==> ChainJoins(cs, ps, |constraints|, |particles|, i, stiffness, dts)
  {
    ps := RopeParticles(particles, x, y, number, space, mass, radius);
    var start, k0 := |particles|, |constraints|;
    cs := constraints;
    var i := 0;
    while i < number - 1
      invariant 0 <= i <= RopeLinks(number)
      invariant |cs| == k0 + i && cs[..k0] == constraints
      invariant forall j :: 0 <= j < i ==> ChainJoins(cs, ps, k0, start, j, stiffness, dts)
      invariant forall j :: 0 <= j < number ==> RopeAt(ps, start, j, x, y, number, space, mass, radius)
    {
      var c := Join(lib, ps[start + i], ps[start + i + 1], stiffness, dts);
      forall j | 0 <= j < i
        ensures ChainJoins(cs + [c], ps, k0, start, j, stiffness, dts)
      {
        ChainJoinsExtend(cs, [c], ps, k0, start, j, stiffness, dts);
      }
      assert (cs + [c])[..k0] == cs[..k0];
      cs := cs + [c];
      i := i + 1;
    }
  }

  /** The first loop of createRope: the rope's particles. */
  method RopeParticles(particles: seq<Particle>, x: real, y: real, number: nat, space: real, mass: real, radius: real)
    returns (ps: seq<Particle>)
    ensures |ps| == |particles| + number && ps[..|particles|] == particles
    ensures forall k :: |particles| <= k < |ps| ==> fresh(ps[k])
    ensures Distinct(particles) ==> Distinct(ps)
    ensures forall i :: 0 <= i < number ==> RopeAt(ps, |particles|, i, x, y, number, space, mass, radius)
  {
    var start := |particles|;
    ps := particles;
    var i := 0;
    while i < number
      invariant 0 <= i <= number
      invariant |ps| == start + i && ps[..start] == particles
      invariant forall k :: start <= k < |ps| ==> fresh(ps[k])
      invariant Distinct(particles) ==> Distinct(ps)
      invariant forall j :: 0 <= j < i ==> RopeAt(ps, start, j, x, y, number, space, mass, radius)
    {
      var isEnd := i == 0 || i == number - 1;
      var p := new Particle(x + i as real * space, y, if isEnd then 0.0 else mass, radius);
      forall j | 0 <= j < i
        ensures RopeAt(ps + [p], start, j, x, y, number, space, mass, radius)
      {
        RopeAtExtend(ps, [p], start, j, x, y, number, space, mass, radius);
      }
      if Distinct(particles) {
        DistinctSnoc(ps, p);
      }
      assert (ps + [p])[..start] == ps[..start];
      ps := ps + [p];
      i := i + 1;
    }
  }
}
