/** sceneConfig.js: createSceneConfig builds a scene into local lists with
    inner factories, then returns the lists and the settings as one record.
    The record carries no dts and no canvas. */
module SceneConfigs {
  import opened Vectors
  import opened Particles
  import opened Polygons
  import opened Configs
  import opened SceneFactories
  import R = RootConstraints

  /** The record createSceneConfig returns. */
  datatype SceneRecord = SceneRecord(
    dt: real, substeps: nat, gravity: Vec, multiplier: real, mu: real, radius: real, mass: real,
    particles: seq<Particle>, constraints: seq<R.DistanceConstraint>, polygons: seq<Polygon>)

  /** The local constants every particle and constraint is built with. */
  const Radius: real := 15.0
  const Mass: real := 1.0
  const Dts: real := 0.002 / 5.0


  /** createSceneConfig: dt 0.002 in 5 substeps, gravity (0, 9.81),
      multiplier 100, μ 0.5, radius 15, mass 1; 45 distinct particles, the
      first pinned at (740, 100); 58 constraints, the last three joining
      particle 0 to 1 (stiffness 1), 0 to 5 (0.5) and 9 to 14 (0), all with
      dts = 0.002/5; two polygons over the same square, at (200, 400) turned
      30° and at (600, 400) turned −30°. */
  method CreateSceneConfig(lib: MathLib) returns (r: SceneRecord)
    ensures r.dt == 0.002 && r.substeps == 5 && r.gravity == Vec(0.0, 9.81) && r.multiplier == 100.0
    ensures r.mu == 0.5 && r.radius == Radius && r.mass == Mass
    ensures |r.particles| == 45 && |r.constraints| == 58 && |r.polygons| == 2
    ensures Distinct(r.particles)
    ensures PlacedAt(r.particles, 0, Vec(740.0, 100.0), 0.0, Radius) && r.particles[0].w == 0.0
    ensures Joins(r.constraints[55], r.particles[0], r.particles[1], 1.0, Dts)
    ensures Joins(r.constraints[56], r.particles[0], r.particles[5], 0.5, Dts)
    ensures Joins(r.constraints[57], r.particles[9], r.particles[14], 0.0, Dts)
    ensures r.polygons[0].points == Square && r.polygons[1].points == Square
    ensures r.polygons[0].position == Vec(200.0, 400.0) && r.polygons[0].rotation == 30.0 && r.polygons[0].Valid()
    ensures r.polygons[1].position == Vec(600.0, 400.0) && r.polygons[1].rotation == -30.0 && r.polygons[1].Valid()
  {
    var particles, constraints := Populate(lib);
    var polygons := PlaceSquares(lib);
    constraints := AnchorLinks(lib, particles, constraints);
    r := SceneRecord(0.002, 5, Vec(0.0, 9.81), 100.0, 0.5, Radius, Mass, particles, constraints, polygons);
  }

  /** The anchor, the six boxes and the rope of createSceneConfig. */
  method Populate(lib: MathLib) returns (particles: seq<Particle>, constraints: seq<R.DistanceConstraint>)
    ensures |particles| == 45 && |constraints| == 55 && Distinct(particles)
    ensures PlacedAt(particles, 0, Vec(740.0, 100.0), 0.0, Radius) && particles[0].w == 0.0
  {
    var anchor := new Particle(740.0, 100.0, 0.0, Radius);
    particles, constraints := [anchor], [];
    assert anchor.w == 0.0 && Distinct(particles);
    particles, constraints := Boxes(lib, particles, constraints);
    particles, constraints := CreateRope(lib, particles, constraints, 200.0, 200.0, 20, 30.0, 0.0, Mass, Radius, Dts);
    assert particles[0] == anchor;
  }

  /** The six boxes, all with stiffness 0, appended after the anchor. */
  method Boxes(lib: MathLib, ps: seq<Particle>, cs: seq<R.DistanceConstraint>)
    returns (particles: seq<Particle>, constraints: seq<R.DistanceConstraint>)
    requires |ps| == 1 && |cs| == 0 && Distinct(ps)
    ensures |particles| == 25 && |constraints| == 36 && Distinct(particles) && particles[0] == ps[0]
  {
    particles, constraints := CreateBox2x2(lib, ps, cs, 900.0, 100.0, 50.0, 0.0, Mass, Radius, Dts);
    assert particles[0] == ps[0] && Distinct(particles);
    particles, constraints := CreateBox2x2(lib, particles, constraints, 500.0, 250.0, 50.0, 0.0, Mass, Radius, Dts);
    assert particles[0] == ps[0] && Distinct(particles);
    particles, constraints := CreateBox2x2(lib, particles, constraints, 320.0, 250.0, 50.0, 0.0, Mass, Radius, Dts);
    assert particles[0] == ps[0] && Distinct(particles);
    particles, constraints := CreateBox2x2(lib, particles, constraints, 220.0, 300.0, 50.0, 0.0, Mass, Radius, Dts);
    assert particles[0] == ps[0] && Distinct(particles);
    particles, constraints := CreateBox2x2(lib, particles, constraints, 700.0, 250.0, 50.0, 0.0, Mass, Radius, Dts);
    assert particles[0] == ps[0] && Distinct(particles);
    particles, constraints := CreateBox2x2(lib, particles, constraints, 500.0, 100.0, 50.0, 0.0, Mass, Radius, Dts);
  }

  /** The two polygons over one shared square. */
  method PlaceSquares(lib: MathLib) returns (polygons: seq<Polygon>)
    ensures |polygons| == 2 && polygons[0].points == Square && polygons[1].points == Square
    ensures polygons[0].position == Vec(200.0, 400.0) && polygons[0].rotation == 30.0 && polygons[0].Valid()
    ensures polygons[1].position == Vec(600.0, 400.0) && polygons[1].rotation == -30.0 && polygons[1].Valid()
  {
    var left := new Polygon(lib, Vec(200.0, 400.0), 30.0, Square);
    var right := new Polygon(lib, Vec(600.0, 400.0), -30.0, Square);
    polygons := [left, right];
  }

  /** The three closing links: 0–1, 0–5 and 9–14. */
  method AnchorLinks(lib: MathLib, particles: seq<Particle>, cs: seq<R.DistanceConstraint>) returns (constraints: seq<R.DistanceConstraint>)
    requires |particles| == 45 && |cs| == 55
    ensures |constraints| == 58 && constraints[..55] == cs
    ensures Joins(constraints[55], particles[0], particles[1], 1.0, Dts)
    ensures Joins(constraints[56], particles[0], particles[5], 0.5, Dts)
    ensures Joins(constraints[57], particles[9], particles[14], 0.0, Dts)
  {
    var c0 := Join(lib, particles[0], particles[1], 1.0, Dts);
    var c1 := Join(lib, particles[0], particles[5], 0.5, Dts);
    var c2 := Join(lib, particles[9], particles[14], 0.0, Dts);
    constraints := cs + [c0, c1, c2];
    assert constraints[..55] == cs;
  }
}
