/** SceneBuilder.js: the default scene built on a Config through its add
    and create methods. The static createBox2x2, createRope and createWheel
    of SceneBuilder make the same calls in the same order as the Config
    methods of the same name, so the builders here call those. */
module SceneBuilders {
  import opened Wrappers
  import opened Vectors
  import opened Particles
  import opened Polygons
  import opened Stages
  import opened Configs
  import opened SceneFactories
  import C = Constraints

  /** How SceneBuilder.createBalloon ends: with an exception naming an
      unbound identifier, or by returning the ring particles. */
  datatype BalloonOutcome = ReferenceError(name: string) | Returned(balloonParticles: seq<Particle>)

  /** buildDefaultScene: a default config on the given canvas holding 55
      particles (an anchor pinned at (800, 100), four boxes, a rope of 20
      and two wheels of 8 around a hub), 77 constraints of which the last
      two join the anchor to particles 1 (stiffness 1) and 5 (stiffness
      0.5), and two polygons over one square, at (200, 400) turned 30° and
      at (600, 400) turned −30°. */
  method BuildDefaultScene(lib: MathLib, canvas: Canvas) returns (config: Config)
    ensures fresh(config)
    ensures config.Scalars() == Settings(false, 0.002, 5, 0.002 / 5.0, Vec(0.0, 9.81), 100.0, 0.5, 15.0, 1.0, Some(canvas), None)
    ensures |config.particles| == 55 && |config.constraints| == 77 && |config.polygons| == 2
    ensures config.volumeConstraints == [] && config.environmentCollisionConstraints == []
    ensures PlacedAt(config.particles, 0, Vec(800.0, 100.0), 0.0, 15.0) && config.particles[0].w == 0.0
    ensures Link(config.constraints[75], config.particles[0], config.particles[1], 1.0, config.StepDts())
    ensures Link(config.constraints[76], config.particles[0], config.particles[5], 0.5, config.StepDts())
    ensures config.polygons[0].points == Square && config.polygons[1].points == Square
    ensures config.polygons[0].position == Vec(200.0, 400.0) && config.polygons[0].rotation == 30.0 && config.polygons[0].Valid()
    ensures config.polygons[1].position == Vec(600.0, 400.0) && config.polygons[1].rotation == -30.0 && config.polygons[1].Valid()
  {
    config := new Config();
    config.SetCanvas(canvas);
    Populate(lib, config);
    PlaceSquares(lib, config);
    AnchorLinks(lib, config);
  }

  /** The particles and constraints of buildDefaultScene before the two
      anchor links: the anchor, the boxes, the rope and the wheels. */
  method Populate(lib: MathLib, config: Config)
    requires config.particles == [] && config.constraints == [] && config.radius == 15.0
    modifies config
    ensures config.Scalars() == old(config.Scalars()) && config.volumeConstraints == old(config.volumeConstraints)
    ensures config.environmentCollisionConstraints == old(config.environmentCollisionConstraints) && config.polygons == old(config.polygons)
    ensures |config.particles| == 55 && |config.constraints| == 75
    ensures PlacedAt(config.particles, 0, Vec(800.0, 100.0), 0.0, 15.0) && config.particles[0].w == 0.0
  {
    var anchor := config.AddParticle(800.0, 100.0, 0.0, config.radius);
    assert anchor.w == 0.0 && PlacedAt(config.particles, 0, Vec(800.0, 100.0), 0.0, 15.0);
    Boxes(lib, config);
    assert config.particles[0] == anchor;
    config.CreateRope(lib, 200.0, 150.0, 20, 30.0, 0.0);
    assert config.particles[0] == anchor && PlacedAt(config.particles, 0, Vec(800.0, 100.0), 0.0, 15.0);
    Wheels(lib, config);
    assert config.particles[0] == anchor;
  }

  /** The four boxes of buildDefaultScene, all with the default stiffness 0. */
  method Boxes(lib: MathLib, config: Config)
    requires |config.particles| == 1 && |config.constraints| == 0
    requires PlacedAt(config.particles, 0, Vec(800.0, 100.0), 0.0, 15.0)
    modifies config
    ensures config.Scalars() == old(config.Scalars()) && config.volumeConstraints == old(config.volumeConstraints)
    ensures config.environmentCollisionConstraints == old(config.environmentCollisionConstraints) && config.polygons == old(config.polygons)
    ensures |config.particles| == 17 && |config.constraints| == 24 && config.particles[0] == old(config.particles[0])
    ensures PlacedAt(config.particles, 0, Vec(800.0, 100.0), 0.0, 15.0)
  {
    ghost var anchor := config.particles[0];
    config.CreateBox2x2(lib, 900.0, 100.0, 50.0, 0.0);
    assert config.particles[0] == anchor && PlacedAt(config.particles, 0, Vec(800.0, 100.0), 0.0, 15.0);
    config.CreateBox2x2(lib, 500.0, 250.0, 50.0, 0.0);
    assert config.particles[0] == anchor && PlacedAt(config.particles, 0, Vec(800.0, 100.0), 0.0, 15.0);
    config.CreateBox2x2(lib, 700.0, 250.0, 50.0, 0.0);
    assert config.particles[0] == anchor && PlacedAt(config.particles, 0, Vec(800.0, 100.0), 0.0, 15.0);
    config.CreateBox2x2(lib, 500.0, 50.0, 50.0, 0.0);
  }

  /** The two wheels of buildDefaultScene: radius 55, 8 segments, stiffness
      0.01, centred at (300, 250) and (1100, 200). */
  method Wheels(lib: MathLib, config: Config)
    requires |config.particles| == 37 && |config.constraints| == 43
    modifies config
    ensures config.Scalars() == old(config.Scalars()) && config.volumeConstraints == old(config.volumeConstraints)
    ensures config.environmentCollisionConstraints == old(config.environmentCollisionConstraints) && config.polygons == old(config.polygons)
    ensures |config.particles| == 55 && |config.constraints| == 75 && config.particles[..37] == old(config.particles)
  {
    config.CreateWheel(lib, 300.0, 250.0, 55.0, 8, 0.01);
    config.CreateWheel(lib, 1100.0, 200.0, 55.0, 8, 0.01);
    assert config.particles[..37] == old(config.particles);
  }

  /** The two polygons of buildDefaultScene, over one shared square. */
  method PlaceSquares(lib: MathLib, config: Config)
    requires config.polygons == []
    modifies config
    ensures config.Scalars() == old(config.Scalars()) && config.volumeConstraints == old(config.volumeConstraints)
    ensures config.environmentCollisionConstraints == old(config.environmentCollisionConstraints)
    ensures config.particles == old(config.particles) && config.constraints == old(config.constraints)
    ensures |config.polygons| == 2 && config.polygons[0].points == Square && config.polygons[1].points == Square
    ensures config.polygons[0].position == Vec(200.0, 400.0) && config.polygons[0].rotation == 30.0 && config.polygons[0].Valid()
    ensures config.polygons[1].position == Vec(600.0, 400.0) && config.polygons[1].rotation == -30.0 && config.polygons[1].Valid()
  {
    var left := config.AddPolygon(lib, Vec(200.0, 400.0), 30.0, Square);
    var right := config.AddPolygon(lib, Vec(600.0, 400.0), -30.0, Square);
  }

  /** The two closing links of buildDefaultScene: 0–1 and 0–5. */
  method AnchorLinks(lib: MathLib, config: Config)
    requires |config.particles| == 55 && |config.constraints| == 75
    modifies config
    ensures config.Scalars() == old(config.Scalars()) && config.volumeConstraints == old(config.volumeConstraints)
    ensures config.environmentCollisionConstraints == old(config.environmentCollisionConstraints) && config.polygons == old(config.polygons)
    ensures config.particles == old(config.particles)
    ensures |config.constraints| == 77 && config.constraints[..75] == old(config.constraints)
    ensures Link(config.constraints[75], config.particles[0], config.particles[1], 1.0, config.StepDts())
    ensures Link(config.constraints[76], config.particles[0], config.particles[5], 0.5, config.StepDts())
  {
    var p := config.particles;
    var c0 := config.AddDistanceConstraint(lib, p[0], p[1], 1.0);
    var c1 := config.AddDistanceConstraint(lib, p[0], p[5], 0.5);
    assert config.constraints[..75] == old(config.constraints);
  }

  /** SceneBuilder.createBalloon as written: the ring particles are added to
      the config, then `new VolumeConstraint` throws, the module never
      importing that class. No volume constraint and no ring link is added,
      and nothing is returned. */
  method CreateBalloon(lib: MathLib, config: Config, x: real, y: real, radius: real, segments: nat, stiffness: real)
    returns (outcome: BalloonOutcome)
    modifies config
    ensures outcome == ReferenceError("VolumeConstraint")
    ensures config.Scalars() == old(config.Scalars()) && config.constraints == old(config.constraints)
    ensures config.volumeConstraints == old(config.volumeConstraints)
    ensures config.environmentCollisionConstraints == old(config.environmentCollisionConstraints) && config.polygons == old(config.polygons)
    ensures |config.particles| == |old(config.particles)| + segments && config.particles[..|old(config.particles)|] == old(config.particles)
    ensures forall i :: 0 <= i < segments ==>
      RingAt(config.particles, |old(config.particles)|, i, lib, x, y, radius, segments, config.mass, config.radius)
  {
    var balloonParticles := config.RingParticles(lib, x, y, radius, segments);
    outcome := ReferenceError("VolumeConstraint");
  }
}
