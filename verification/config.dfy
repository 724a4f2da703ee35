/** Config.js: the scene container the XPBD solver and the collision
    detector read, and the builders that fill it. */
module Configs {
  import opened Wrappers
  import opened Vectors
  import opened Particles
  import opened Polygons
  import opened Stages
  import C = Constraints

  /** The scalar settings of a config, and the two single-object slots. */
  datatype Settings = Settings(
    paused: bool, dt: real, substeps: nat, dts: real, gravity: Vec, multiplier: real,
    mu: real, radius: real, mass: real, canvas: Option<Canvas>,
    mouseConstraint: Option<C.MouseDistanceConstraint>)

  /** The six links of a 2×2 box as indices into its four particles, in the
      order every box builder adds them. */
  const BoxLinks: seq<(nat, nat)> := [(0, 1), (0, 2), (1, 3), (2, 3), (0, 3), (1, 2)]

  /** The box links join every pair of the four particles exactly once. */
  lemma BoxLinksAllPairs()
    ensures |BoxLinks| == 6
    ensures forall a: nat, b: nat :: (a, b) in BoxLinks <==> a < b < 4
    ensures forall k, l :: 0 <= k < l < |BoxLinks| ==> BoxLinks[k] != BoxLinks[l]
  {
    forall a: nat, b: nat
      ensures (a, b) in BoxLinks <==> a < b < 4
    {
      if a < b < 4 {
        if a == 0 && b == 1 { assert BoxLinks[0] == (a, b); }
        else if a == 0 && b == 2 { assert BoxLinks[1] == (a, b); }
        else if a == 1 && b == 3 { assert BoxLinks[2] == (a, b); }
        else if a == 2 && b == 3 { assert BoxLinks[3] == (a, b); }
        else if a == 0 && b == 3 { assert BoxLinks[4] == (a, b); }
        else { assert BoxLinks[5] == (a, b); }
      }
    }
  }

  /** The number of links a rope of `count` particles gets: the loop
      `i < count - 1` runs count − 1 times, and not at all for an empty
      rope. */
  function RopeLinks(count: nat): nat
  {
    if count == 0 then 0 else count - 1
  }

  /** Where ring particle i of `segments` sits on a circle of `radius`
      around (x, y): angle (i/segments)·π·2. */
  function RingPoint(lib: MathLib, x: real, y: real, radius: real, i: nat, segments: nat): Vec
  {
    var angle := Quot(i as real, segments as real) * lib.pi * 2.0;
    Vec(x + lib.cos(angle) * radius, y + lib.sin(angle) * radius)
  }

  /** The constraint c joins a to b with the given stiffness, built the way
      addDistanceConstraint builds it: `damping` (the config's dt/substeps)
      in the damping slot and no config object. */
  predicate Link(c: C.DistanceConstraint, a: Particle, b: Particle, stiffness: real, damping: real)
  {
    c.particleA == a && c.particleB == b && c.stiffness == stiffness &&
    c.damping == damping && c.configDts2 == None
  }

  /** A constraint built the way addDistanceConstraint builds it has no
      compliance of its own: its solve divides by the dts2 of a config it
      was never given. */
  lemma LinkHasNoCompliance(c: C.DistanceConstraint, a: Particle, b: Particle, stiffness: real, damping: real)
    requires Link(c, a, b, stiffness, damping)
    ensures c.AlphaAsWritten() == None
  {
  }

  /** Particle k of ps is at p with mass m and radius r. */
  predicate PlacedAt(ps: seq<Particle>, k: nat, p: Vec, m: real, r: real)
    reads ps
  {
    k < |ps| && ps[k].positionX == p && ps[k].m == m && ps[k].radius == r
  }

  /** Rope particle i of `count`, particle start + i of ps, is at
      (x + i·spacing, y), pinned (mass 0) when it is the first or the last. */
  predicate RopeAt(ps: seq<Particle>, start: nat, i: nat, x: real, y: real, count: nat, spacing: real, mass: real, r: real)
    reads ps
  {
    PlacedAt(ps, start + i, Vec(x + i as real * spacing, y), if i == 0 || i == count - 1 then 0.0 else mass, r)
  }

  /** Constraint k0 + i of cs joins particle start + i of ps to particle
      start + i + 1. */
  predicate ChainAt(cs: seq<C.DistanceConstraint>, ps: seq<Particle>, k0: nat, start: nat, i: nat, stiffness: real, damping: real)
  {
    k0 + i < |cs| && start + i + 1 < |ps| &&
    Link(cs[k0 + i], ps[start + i], ps[start + i + 1], stiffness, damping)
  }

  lemma RopeAtExtend(ps: seq<Particle>, more: seq<Particle>, start: nat, i: nat, x: real, y: real, count: nat, spacing: real, mass: real, r: real)
    requires start + i < |ps|
    ensures RopeAt(ps + more, start, i, x, y, count, spacing, mass, r) == RopeAt(ps, start, i, x, y, count, spacing, mass, r)
  {
    assert (ps + more)[start + i] == ps[start + i];
  }

  lemma ChainAtExtend(cs: seq<C.DistanceConstraint>, more: seq<C.DistanceConstraint>, ps: seq<Particle>, k0: nat, start: nat, i: nat, stiffness: real, damping: real)
    requires k0 + i < |cs|
    ensures ChainAt(cs + more, ps, k0, start, i, stiffness, damping) == ChainAt(cs, ps, k0, start, i, stiffness, damping)
  {
    assert (cs + more)[k0 + i] == cs[k0 + i];
  }

  /** Ring particle i, particle start + i of ps, is at its place on the
      circle of RingPoint, with mass m and radius r. */
  predicate RingAt(ps: seq<Particle>, start: nat, i: nat, lib: MathLib, x: real, y: real, radius: real, segments: nat, m: real, r: real)
    reads ps
  {
    PlacedAt(ps, start + i, RingPoint(lib, x, y, radius, i, segments), m, r)
  }

  /** Constraint k of cs joins a to b as addDistanceConstraint builds it. */
  predicate LinkAt(cs: seq<C.DistanceConstraint>, k: nat, a: Particle, b: Particle, stiffness: real, damping: real)
  {
    k < |cs| && Link(cs[k], a, b, stiffness, damping)
  }

  /** Constraint k0 + i of cs joins ring particle i to the next one around
      the ring, the last back to the first. */
  predicate CycleAt(cs: seq<C.DistanceConstraint>, ring: seq<Particle>, k0: nat, i: nat, stiffness: real, damping: real)
  {
    i < |ring| && LinkAt(cs, k0 + i, ring[i], ring[(i + 1) % |ring|], stiffness, damping)
  }

  /** Constraint k0 + skip + i of cs is the spoke from the centre to ring
      particle i. */
  predicate SpokeAt(cs: seq<C.DistanceConstraint>, center: Particle, ring: seq<Particle>, k0: nat, skip: nat, i: nat, stiffness: real, damping: real)
  {
    i < |ring| && LinkAt(cs, k0 + skip + i, center, ring[i], stiffness, damping)
  }

  lemma RingAtExtend(ps: seq<Particle>, more: seq<Particle>, start: nat, i: nat, lib: MathLib, x: real, y: real, radius: real, segments: nat, m: real, r: real)
    requires start + i < |ps|
    ensures RingAt(ps + more, start, i, lib, x, y, radius, segments, m, r) == RingAt(ps, start, i, lib, x, y, radius, segments, m, r)
  {
    assert (ps + more)[start + i] == ps[start + i];
  }

  lemma LinkAtExtend(cs: seq<C.DistanceConstraint>, more: seq<C.DistanceConstraint>, k: nat, a: Particle, b: Particle, stiffness: real, damping: real)
    requires k < |cs|
    ensures LinkAt(cs + more, k, a, b, stiffness, damping) == LinkAt(cs, k, a, b, stiffness, damping)
  {
    assert (cs + more)[k] == cs[k];
  }

  /** The n particles of ps from index start on. */
  function Window(ps: seq<Particle>, start: nat, n: nat): (r: seq<Particle>)
    requires start + n <= |ps|
    ensures |r| == n && forall i :: 0 <= i < n ==> r[i] == ps[start + i]
  {
    ps[start..start + n]
  }

  /** Particle start + n of ps: the one added after a window of n. */
  function Hub(ps: seq<Particle>, start: nat, n: nat): Particle
    requires start + n < |ps|
  {
    ps[start + n]
  }

  class Config {
    var paused: bool
    var dt: real
    var substeps: nat
    var dts: real
    var gravity: Vec
    var multiplier: real
    var mu: real
    var radius: real
    var mass: real
    var particles: seq<Particle>
    var constraints: seq<C.DistanceConstraint>
    var mouseConstraint: Option<C.MouseDistanceConstraint>
    var volumeConstraints: seq<C.VolumeConstraint>
    var environmentCollisionConstraints: seq<C.EnvironmentCollisionConstraint>
    var polygons: seq<Polygon>
    var canvas: Option<Canvas>

    /** A new config: not paused, dt = 0.002 split into 5 substeps,
        gravity (0, 9.81), multiplier 100, μ = 0.5, radius 15, mass 1,
        every list empty and no canvas. */
    constructor ()
      ensures Scalars() == Settings(false, 0.002, 5, 0.002 / 5.0, Vec(0.0, 9.81), 100.0, 0.5, 15.0, 1.0, None, None)
      ensures dts == dt / (substeps as real)
      ensures particles == [] && constraints == [] && volumeConstraints == []
      ensures environmentCollisionConstraints == [] && polygons == []
    {
      paused := false;
      dt := 0.002;
      substeps := 5;
      dts := 0.002 / 5.0;
      gravity := Vec(0.0, 9.81);
      multiplier := 100.0;
      mu := 0.5;
      radius := 15.0;
      mass := 1.0;
      particles := [];
      constraints := [];
      mouseConstraint := None;
      volumeConstraints := [];
      environmentCollisionConstraints := [];
      polygons := [];
      canvas := None;
    }

    /** The substep length addDistanceConstraint stores: dt/substeps. */
    function StepDts(): real
      reads this
    {
      Quot(dt, substeps as real)
    }

    function Scalars(): Settings
      reads this
    {
      Settings(paused, dt, substeps, dts, gravity, multiplier, mu, radius, mass, canvas, mouseConstraint)
    }

    /** addParticle: one new particle at rest at (x, y), appended to the
        particle list; nothing else changes. */
    method AddParticle(x: real, y: real, mass: real, radius: real) returns (particle: Particle)
      modifies this
      ensures fresh(particle) && particles == old(particles) + [particle]
      ensures particle.positionX == Vec(x, y) && particle.positionP == Vec(x, y) && particle.velocity == Zero
      ensures particle.m == mass && particle.w == InverseMass(mass) && particle.radius == radius
      ensures Scalars() == old(Scalars()) && constraints == old(constraints) && volumeConstraints == old(volumeConstraints)
      ensures environmentCollisionConstraints == old(environmentCollisionConstraints) && polygons == old(polygons)
    {
      particle := new Particle(x, y, mass, radius);
      particles := particles + [particle];
    }

    /** addDistanceConstraint: one new constraint from p1 to p2, its rest
        length their current distance, appended to the constraint list. */
    method AddDistanceConstraint(lib: MathLib, p1: Particle, p2: Particle, stiffness: real) returns (constraint: C.DistanceConstraint)
      modifies this
      ensures fresh(constraint) && constraints == old(constraints) + [constraint]
      ensures Link(constraint, p1, p2, stiffness, StepDts())
      ensures constraint.initialDistance == Length(lib, Sub(p2.positionX, p1.positionX))
      ensures Scalars() == old(Scalars()) && particles == old(particles) && volumeConstraints == old(volumeConstraints)
      ensures environmentCollisionConstraints == old(environmentCollisionConstraints) && polygons == old(polygons)
    {
      var dts := Quot(dt, substeps as real);
      constraint := new C.DistanceConstraint(lib, p1, p2, stiffness, dts, None);
      constraints := constraints + [constraint];
    }

    /** addEnvironmentCollisionConstraint: one new contact carrying this
        config's μ, appended to the contact list. */
    method AddEnvironmentCollisionConstraint(particle: Particle, q: Option<Vec>, n: Option<Vec>) returns (constraint: C.EnvironmentCollisionConstraint)
      modifies this
      ensures fresh(constraint) && environmentCollisionConstraints == old(environmentCollisionConstraints) + [constraint]
      ensures constraint.particle == particle && constraint.q == q && constraint.n == n && constraint.mu == mu
      ensures Scalars() == old(Scalars()) && particles == old(particles) && constraints == old(constraints)
      ensures volumeConstraints == old(volumeConstraints) && polygons == old(polygons)
    {
      constraint := new C.EnvironmentCollisionConstraint(particle, q, n, mu);
      environmentCollisionConstraints := environmentCollisionConstraints + [constraint];
    }

    /** addPolygon: one new polygon, its vertices placed, appended to the
        polygon list. */
    method AddPolygon(lib: MathLib, position: Vec, rotation: real, points: seq<Vec>) returns (polygon: Polygon)
      modifies this
      ensures fresh(polygon) && polygons == old(polygons) + [polygon]
      ensures polygon.position == position && polygon.rotation == rotation && polygon.points == points && polygon.Valid()
      ensures Scalars() == old(Scalars()) && particles == old(particles) && constraints == old(constraints)
      ensures volumeConstraints == old(volumeConstraints) && environmentCollisionConstraints == old(environmentCollisionConstraints)
    {
      polygon := new Polygon(lib, position, rotation, points);
      polygons := polygons + [polygon];
    }

    method SetCanvas(canvas: Canvas)
      modifies this
      ensures this.canvas == Some(canvas)
      ensures Scalars() == old(Scalars()).(canvas := Some(canvas))
      ensures particles == old(particles) && constraints == old(constraints) && volumeConstraints == old(volumeConstraints)
      ensures environmentCollisionConstraints == old(environmentCollisionConstraints) && polygons == old(polygons)
    {
      this.canvas := Some(canvas);
    }

    /** createBox2x2: four new particles at the corners of a square of side
        `spacing` with (x, y) top left, and six constraints, one for every
        pair of them, in the order of BoxLinks. */
    method CreateBox2x2(lib: MathLib, x: real, y: real, spacing: real, stiffness: real)
      modifies this
      ensures Scalars() == old(Scalars()) && volumeConstraints == old(volumeConstraints)
      ensures environmentCollisionConstraints == old(environmentCollisionConstraints) && polygons == old(polygons)
      ensures |particles| == |old(particles)| + 4 && particles[..|old(particles)|] == old(particles)
      ensures forall k :: |old(particles)| <= k < |particles| ==> fresh(particles[k])
      ensures PlacedAt(particles, |old(particles)|, Vec(x, y), mass, radius) && PlacedAt(particles, |old(particles)| + 1, Vec(x + spacing, y), mass, radius)
      ensures PlacedAt(particles, |old(particles)| + 2, Vec(x, y + spacing), mass, radius) && PlacedAt(particles, |old(particles)| + 3, Vec(x + spacing, y + spacing), mass, radius)
      ensures |constraints| == |old(constraints)| + 6 && constraints[..|old(constraints)|] == old(constraints)
      ensures forall k :: 0 <= k < 6 ==>
        Link(constraints[|old(constraints)| + k], particles[|old(particles)| + BoxLinks[k].0], particles[|old(particles)| + BoxLinks[k].1], stiffness, StepDts())
    {
      var p0 := AddParticle(x, y, mass, radius);
      var p1 := AddParticle(x + spacing, y, mass, radius);
      var p2 := AddParticle(x, y + spacing, mass, radius);
      var p3 := AddParticle(x + spacing, y + spacing, mass, radius);
      var c0 := AddDistanceConstraint(lib, p0, p1, stiffness);
      var c1 := AddDistanceConstraint(lib, p0, p2, stiffness);
      var c2 := AddDistanceConstraint(lib, p1, p3, stiffness);
      var c3 := AddDistanceConstraint(lib, p2, p3, stiffness);
      var c4 := AddDistanceConstraint(lib, p0, p3, stiffness);
      var c5 := AddDistanceConstraint(lib, p1, p2, stiffness);
    }

    /** createRope: `count` new particles spaced along y = const from (x, y),
        the first and last pinned (mass 0), and RopeLinks(count) constraints
        joining each new particle to the next. */
    method CreateRope(lib: MathLib, x: real, y: real, count: nat, spacing: real, stiffness: real)
      modifies this
      ensures Scalars() == old(Scalars()) && volumeConstraints == old(volumeConstraints)
      ensures environmentCollisionConstraints == old(environmentCollisionConstraints) && polygons == old(polygons)
      ensures |particles| == |old(particles)| + count && particles[..|old(particles)|] == old(particles)
      ensures forall k :: |old(particles)| <= k < |particles| ==> fresh(particles[k])
      ensures forall i :: 0 <= i < count ==> RopeAt(particles, |old(particles)|, i, x, y, count, spacing, mass, radius)
      ensures |constraints| == |old(constraints)| + RopeLinks(count) && constraints[..|old(constraints)|] == old(constraints)
      ensures forall i :: 0 <= i < RopeLinks(count) ==> ChainAt(constraints, particles, |old(constraints)|, |old(particles)|, i, stiffness, StepDts())
    {
      var start := |particles|;
      RopeParticles(x, y, count, spacing);
      var k0 := |constraints|;
      var i := 0;
      while i < count - 1
        invariant 0 <= i <= RopeLinks(count)
        invariant Scalars() == old(Scalars()) && volumeConstraints == old(volumeConstraints)
        invariant environmentCollisionConstraints == old(environmentCollisionConstraints) && polygons == old(polygons)
        invariant |particles| == start + count && particles[..start] == old(particles)
        invariant forall k :: start <= k < |particles| ==> fresh(particles[k])
        invariant forall j :: 0 <= j < count ==> RopeAt(particles, start, j, x, y, count, spacing, mass, radius)
        invariant |constraints| == k0 + i && constraints[..k0] == old(constraints)
        invariant forall j :: 0 <= j < i ==> ChainAt(constraints, particles, k0, start, j, stiffness, StepDts())
      {
        ghost var before := constraints;
        ghost var damping := StepDts();
        var c := AddDistanceConstraint(lib, particles[start + i], particles[start + i + 1], stiffness);
        assert StepDts() == damping;
        forall j | 0 <= j < i
          ensures ChainAt(constraints, particles, k0, start, j, stiffness, StepDts())
        {
          ChainAtExtend(before, [c], particles, k0, start, j, stiffness, StepDts());
        }
        i := i + 1;
      }
    }

    /** The first loop of createRope: the rope's particles. */
    method RopeParticles(x: real, y: real, count: nat, spacing: real)
      modifies this
      ensures Scalars() == old(Scalars()) && constraints == old(constraints) && volumeConstraints == old(volumeConstraints)
      ensures environmentCollisionConstraints == old(environmentCollisionConstraints) && polygons == old(polygons)
      ensures |particles| == |old(particles)| + count && particles[..|old(particles)|] == old(particles)
      ensures forall k :: |old(particles)| <= k < |particles| ==> fresh(particles[k])
      ensures forall i :: 0 <= i < count ==> RopeAt(particles, |old(particles)|, i, x, y, count, spacing, mass, radius)
    {
      var start := |particles|;
      var i := 0;
      while i < count
        invariant 0 <= i <= count
        invariant Scalars() == old(Scalars()) && constraints == old(constraints) && volumeConstraints == old(volumeConstraints)
        invariant environmentCollisionConstraints == old(environmentCollisionConstraints) && polygons == old(polygons)
        invariant |particles| == start + i && particles[..start] == old(particles)
        invariant forall k :: start <= k < |particles| ==> fresh(particles[k])
        invariant forall j :: 0 <= j < i ==> RopeAt(particles, start, j, x, y, count, spacing, mass, radius)
      {
        ghost var before := particles;
        var isEnd := i == 0 || i == count - 1;
        var p := AddParticle(x + i as real * spacing, y, if isEnd then 0.0 else mass, radius);
        forall j | 0 <= j < i
          ensures RopeAt(particles, start, j, x, y, count, spacing, mass, radius)
        {
          RopeAtExtend(before, [p], start, j, x, y, count, spacing, mass, radius);
        }
        i := i + 1;
      }
    }
    /** createWheel: `segments` new particles evenly spaced on the circle of
        the given radius around (x, y), each joined to the next around the
        ring, then a centre particle at (x, y) with the default mass, joined
        to every ring particle by a spoke. */
    method CreateWheel(lib: MathLib, x: real, y: real, radius: real, segments: nat, stiffness: real)
      modifies this
      ensures Scalars() == old(Scalars()) && volumeConstraints == old(volumeConstraints)
      ensures environmentCollisionConstraints == old(environmentCollisionConstraints) && polygons == old(polygons)
      ensures |particles| == |old(particles)| + segments + 1 && particles[..|old(particles)|] == old(particles)
      ensures forall k :: |old(particles)| <= k < |particles| ==> fresh(particles[k])
      ensures forall i :: 0 <= i < segments ==>
        RingAt(particles, |old(particles)|, i, lib, x, y, radius, segments, mass, this.radius)
      ensures PlacedAt(particles, |old(particles)| + segments, Vec(x, y), mass, this.radius)
      ensures |constraints| == |old(constraints)| + 2 * segments && constraints[..|old(constraints)|] == old(constraints)
      ensures forall i :: 0 <= i < segments ==>
        CycleAt(constraints, Window(particles, |old(particles)|, segments), |old(constraints)|, i, stiffness, StepDts())
      ensures forall i :: 0 <= i < segments ==>
        SpokeAt(constraints, Hub(particles, |old(particles)|, segments), Window(particles, |old(particles)|, segments),
                |old(constraints)|, segments, i, stiffness, StepDts())
    {
      var n0 := |particles|;
      var wheelParticles := RingParticles(lib, x, y, radius, segments);
      RingLinks(lib, wheelParticles, stiffness);
      ghost var ringed, linked, damping := particles, constraints, StepDts();
      var center := WheelHub(lib, x, y, wheelParticles, stiffness);
      assert StepDts() == damping;
      assert Window(particles, n0, segments) == wheelParticles && Hub(particles, n0, segments) == center;
      forall i | 0 <= i < segments
        ensures RingAt(particles, n0, i, lib, x, y, radius, segments, mass, this.radius)
      {
        RingAtExtend(ringed, [center], n0, i, lib, x, y, radius, segments, mass, this.radius);
      }
      forall i | 0 <= i < segments
        ensures CycleAt(constraints, wheelParticles, |old(constraints)|, i, stiffness, damping)
      {
        assert CycleAt(linked, wheelParticles, |old(constraints)|, i, stiffness, damping);
        LinkAtExtend(linked, constraints[|linked|..], |old(constraints)| + i, wheelParticles[i],
                     wheelParticles[(i + 1) % segments], stiffness, damping);
        assert linked + constraints[|linked|..] == constraints;
      }
      forall i | 0 <= i < segments
        ensures SpokeAt(constraints, center, wheelParticles, |old(constraints)|, segments, i, stiffness, damping)
      {
        assert SpokeAt(constraints, center, wheelParticles, |linked|, 0, i, stiffness, damping);
      }
    }

    /** The centre of createWheel: a particle at (x, y) with the default mass
        and radius, then a spoke from it to every ring particle. */
    method WheelHub(lib: MathLib, x: real, y: real, ring: seq<Particle>, stiffness: real) returns (center: Particle)
      modifies this
      ensures Scalars() == old(Scalars()) && volumeConstraints == old(volumeConstraints)
      ensures environmentCollisionConstraints == old(environmentCollisionConstraints) && polygons == old(polygons)
      ensures fresh(center) && particles == old(particles) + [center]
      ensures PlacedAt(particles, |old(particles)|, Vec(x, y), mass, radius)
      ensures |constraints| == |old(constraints)| + |ring| && constraints[..|old(constraints)|] == old(constraints)
      ensures forall i :: 0 <= i < |ring| ==> SpokeAt(constraints, center, ring, |old(constraints)|, 0, i, stiffness, StepDts())
    {
      center := AddParticle(x, y, mass, radius);
      Spokes(lib, center, ring, stiffness);
    }

    /** createBalloon: `segments` new particles evenly spaced on the circle
        of the given radius around (x, y), one new volume constraint over them
        with compliance 0.1 and this config's dts, and a link from each to the
        next around the ring; the ring particles are returned. */
    method CreateBalloon(lib: MathLib, x: real, y: real, radius: real, segments: nat, stiffness: real)
      returns (balloonParticles: seq<Particle>)
      modifies this
      ensures Scalars() == old(Scalars())
      ensures environmentCollisionConstraints == old(environmentCollisionConstraints) && polygons == old(polygons)
      ensures particles == old(particles) + balloonParticles && |balloonParticles| == segments
      ensures forall k :: 0 <= k < segments ==> fresh(balloonParticles[k])
      ensures forall i :: 0 <= i < segments ==>
        RingAt(particles, |old(particles)|, i, lib, x, y, radius, segments, mass, this.radius)
      ensures |volumeConstraints| == |old(volumeConstraints)| + 1 && volumeConstraints[..|old(volumeConstraints)|] == old(volumeConstraints)
      ensures var vc := volumeConstraints[|old(volumeConstraints)|];
        fresh(vc) && vc.particles == balloonParticles && vc.compliance == 0.1 && vc.dts == dts
      ensures |constraints| == |old(constraints)| + segments && constraints[..|old(constraints)|] == old(constraints)
      ensures forall i :: 0 <= i < segments ==>
        CycleAt(constraints, balloonParticles, |old(constraints)|, i, stiffness, StepDts())
    {
      balloonParticles := RingParticles(lib, x, y, radius, segments);
      var volumeConstraint := new C.VolumeConstraint(balloonParticles, 0.1, dts);
      volumeConstraints := volumeConstraints + [volumeConstraint];
      RingLinks(lib, balloonParticles, stiffness);
    }

    /** The first loop of createWheel and createBalloon: the ring's particles,
        with the default mass and radius. */
    method RingParticles(lib: MathLib, x: real, y: real, radius: real, segments: nat) returns (ring: seq<Particle>)
      modifies this
      ensures Scalars() == old(Scalars()) && constraints == old(constraints) && volumeConstraints == old(volumeConstraints)
      ensures environmentCollisionConstraints == old(environmentCollisionConstraints) && polygons == old(polygons)
      ensures particles == old(particles) + ring && |ring| == segments
      ensures forall k :: 0 <= k < segments ==> fresh(ring[k])
      ensures forall i :: 0 <= i < segments ==>
        RingAt(particles, |old(particles)|, i, lib, x, y, radius, segments, mass, this.radius)
    {
      var start := |particles|;
      ring := [];
      var i := 0;
      while i < segments
        invariant 0 <= i <= segments
        invariant Scalars() == old(Scalars()) && constraints == old(constraints) && volumeConstraints == old(volumeConstraints)
        invariant environmentCollisionConstraints == old(environmentCollisionConstraints) && polygons == old(polygons)
        invariant particles == old(particles) + ring && |ring| == i
        invariant forall k :: 0 <= k < i ==> fresh(ring[k])
        invariant forall j :: 0 <= j < i ==> RingAt(particles, start, j, lib, x, y, radius, segments, mass, this.radius)
      {
        ghost var before := particles;
        ghost var m, r := mass, this.radius;
        var point := RingPoint(lib, x, y, radius, i, segments);
        var p := AddParticle(point.x, point.y, mass, this.radius);
        ring := ring + [p];
        assert mass == m && this.radius == r;
        forall j | 0 <= j < i
          ensures RingAt(particles, start, j, lib, x, y, radius, segments, mass, this.radius)
        {
          assert RingAt(before, start, j, lib, x, y, radius, segments, m, r);
          RingAtExtend(before, [p], start, j, lib, x, y, radius, segments, mass, this.radius);
        }
        i := i + 1;
      }
    }

    /** The ring loop of createWheel and createBalloon: each ring particle
        joined to the next, the last to the first. */
    method RingLinks(lib: MathLib, ring: seq<Particle>, stiffness: real)
      modifies this
      ensures Scalars() == old(Scalars()) && particles == old(particles) && volumeConstraints == old(volumeConstraints)
      ensures environmentCollisionConstraints == old(environmentCollisionConstraints) && polygons == old(polygons)
      ensures |constraints| == |old(constraints)| + |ring| && constraints[..|old(constraints)|] == old(constraints)
      ensures forall i :: 0 <= i < |ring| ==> CycleAt(constraints, ring, |old(constraints)|, i, stiffness, StepDts())
    {
      var k0 := |constraints|;
      var segments := |ring|;
      for i := 0 to segments
        invariant Scalars() == old(Scalars()) && particles == old(particles) && volumeConstraints == old(volumeConstraints)
        invariant environmentCollisionConstraints == old(environmentCollisionConstraints) && polygons == old(polygons)
        invariant |constraints| == k0 + i && constraints[..k0] == old(constraints)
        invariant forall j :: 0 <= j < i ==> CycleAt(constraints, ring, k0, j, stiffness, StepDts())
      {
        ghost var before := constraints;
        ghost var damping := StepDts();
        var p1 := ring[i];
        var p2 := ring[(i + 1) % segments];
        var c := AddDistanceConstraint(lib, p1, p2, stiffness);
        assert StepDts() == damping;
        forall j | 0 <= j < i
          ensures CycleAt(constraints, ring, k0, j, stiffness, StepDts())
        {
          assert CycleAt(before, ring, k0, j, stiffness, damping);
          LinkAtExtend(before, [c], k0 + j, ring[j], ring[(j + 1) % segments], stiffness, damping);
        }
      }
    }

    /** The last loop of createWheel: a spoke from the centre to every ring
        particle. */
    method Spokes(lib: MathLib, center: Particle, ring: seq<Particle>, stiffness: real)
      modifies this
      ensures Scalars() == old(Scalars()) && particles == old(particles) && volumeConstraints == old(volumeConstraints)
      ensures environmentCollisionConstraints == old(environmentCollisionConstraints) && polygons == old(polygons)
      ensures |constraints| == |old(constraints)| + |ring| && constraints[..|old(constraints)|] == old(constraints)
      ensures forall i :: 0 <= i < |ring| ==> SpokeAt(constraints, center, ring, |old(constraints)|, 0, i, stiffness, StepDts())
    {
      var k0 := |constraints|;
      for i := 0 to |ring|
        invariant Scalars() == old(Scalars()) && particles == old(particles) && volumeConstraints == old(volumeConstraints)
        invariant environmentCollisionConstraints == old(environmentCollisionConstraints) && polygons == old(polygons)
        invariant |constraints| == k0 + i && constraints[..k0] == old(constraints)
        invariant forall j :: 0 <= j < i ==> SpokeAt(constraints, center, ring, k0, 0, j, stiffness, StepDts())
      {
        ghost var before := constraints;
        ghost var damping := StepDts();
        var c := AddDistanceConstraint(lib, center, ring[i], stiffness);
        assert StepDts() == damping;
        forall j | 0 <= j < i
          ensures SpokeAt(constraints, center, ring, k0, 0, j, stiffness, StepDts())
        {
          assert SpokeAt(before, center, ring, k0, 0, j, stiffness, damping);
          LinkAtExtend(before, [c], k0 + j, center, ring[j], stiffness, damping);
        }
      }
    }
  }
}
