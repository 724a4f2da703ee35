/** Scene.js: the hard-coded scene the inline loops of main.js and js.js
    step: one pinned anchor, six boxes, a rope, two polygons over one square
    and three links from the anchor, all constraints being root distance
    constraints built with this scene's dts. */
module Scenes {
  import opened Vectors
  import opened Particles
  import opened Polygons
  import opened Configs
  import opened SceneFactories
  import C = Constraints
  import R = RootConstraints

  /** The scalar settings of a scene. */
  datatype SceneSettings = SceneSettings(
    dt: real, substeps: nat, dts: real, gravity: Vec, multiplier: real, mu: real, radius: real, mass: real)


  class Scene {
    var dt: real
    var substeps: nat
    var dts: real
    var gravity: Vec
    var multiplier: real
    var mu: real
    var particles: seq<Particle>
    var constraints: seq<R.DistanceConstraint>
    /** Created empty and never read by any stepper. */
    var collisionConstraints: seq<C.EnvironmentCollisionConstraint>
    var polygons: seq<Polygon>
    var radius: real
    var mass: real
    var points: seq<Vec>

    function Settings(): SceneSettings
      reads this
    {
      SceneSettings(dt, substeps, dts, gravity, multiplier, mu, radius, mass)
    }

    /** The scene: dt 0.002 in 5 substeps, gravity (0, 9.8), multiplier 100,
        μ 0.3, radius 15, mass 1; 35 distinct particles, the first pinned
        at (740, 100); 48 constraints, the last three joining the anchor to
        particles 1, 5 and 10 with stiffness 1, 0.5 and 0.1; two polygons
        over the same square, at (200, 400) turned 30° and at (600, 400)
        turned −30°. */
    constructor (lib: MathLib)
      ensures Settings() == SceneSettings(0.002, 5, 0.002 / 5.0, Vec(0.0, 9.8), 100.0, 0.3, 15.0, 1.0)
      ensures |particles| == 35 && |constraints| == 48 && |polygons| == 2 && collisionConstraints == []
      ensures Distinct(particles)
      ensures PlacedAt(particles, 0, Vec(740.0, 100.0), 0.0, 15.0) && particles[0].w == 0.0
      ensures Joins(constraints[45], particles[0], particles[1], 1.0, dts)
      ensures Joins(constraints[46], particles[0], particles[5], 0.5, dts)
      ensures Joins(constraints[47], particles[0], particles[10], 0.1, dts)
      ensures points == Square && polygons[0].points == Square && polygons[1].points == Square
      ensures polygons[0].position == Vec(200.0, 400.0) && polygons[0].rotation == 30.0 && polygons[0].Valid()
      ensures polygons[1].position == Vec(600.0, 400.0) && polygons[1].rotation == -30.0 && polygons[1].Valid()
    {
      dt := 0.002;
      substeps := 5;
      dts := 0.002 / 5.0;
      gravity := Vec(0.0, 9.8);
      multiplier := 100.0;
      mu := 0.3;
      particles := [];
      constraints := [];
      collisionConstraints := [];
      polygons := [];
      radius := 15.0;
      mass := 1.0;
      points := [];
      new;
      Populate(lib);
      PlaceSquares(lib);
      Anchors(lib);
    }

    /** The particles and constraints of the constructor before the three
        anchor links: the anchor, the boxes, the rope. */
    method Populate(lib: MathLib)
      requires dts != 0.0 && particles == [] && constraints == [] && radius == 15.0
      modifies this
      ensures Settings() == old(Settings()) && polygons == old(polygons) && points == old(points)
      ensures collisionConstraints == old(collisionConstraints)
      ensures |particles| == 35 && |constraints| == 45 && Distinct(particles)
      ensures PlacedAt(particles, 0, Vec(740.0, 100.0), 0.0, 15.0) && particles[0].w == 0.0
    {
      var anchor := new Particle(740.0, 100.0, 0.0, radius);
      particles := particles + [anchor];
      assert anchor.w == 0.0 && Distinct(particles);
      Boxes(lib);
      CreateRope(lib, 200.0, 200.0, 10, 30.0, 0.0);
      assert particles[0] == anchor;
    }

    /** The two polygons of the constructor, over one shared square. */
    method PlaceSquares(lib: MathLib)
      requires polygons == []
      modifies this
      ensures Settings() == old(Settings()) && particles == old(particles) && constraints == old(constraints)
      ensures collisionConstraints == old(collisionConstraints)
      ensures points == Square && |polygons| == 2 && polygons[0].points == Square && polygons[1].points == Square
      ensures polygons[0].position == Vec(200.0, 400.0) && polygons[0].rotation == 30.0 && polygons[0].Valid()
      ensures polygons[1].position == Vec(600.0, 400.0) && polygons[1].rotation == -30.0 && polygons[1].Valid()
    {
      points := Square;
      var left := new Polygon(lib, Vec(200.0, 400.0), 30.0, points);
      var right := new Polygon(lib, Vec(600.0, 400.0), -30.0, points);
      polygons := polygons + [left, right];
    }

    /** The six boxes of the constructor, all with stiffness 0. */
    method Boxes(lib: MathLib)
      requires dts != 0.0 && |particles| == 1 && |constraints| == 0 && Distinct(particles)
      requires PlacedAt(particles, 0, Vec(740.0, 100.0), 0.0, 15.0)
      modifies this
      ensures Settings() == old(Settings()) && polygons == old(polygons) && points == old(points)
      ensures collisionConstraints == old(collisionConstraints)
      ensures |particles| == 25 && |constraints| == 36 && Distinct(particles)
      ensures PlacedAt(particles, 0, Vec(740.0, 100.0), 0.0, 15.0) && particles[0] == old(particles[0])
    {
      ghost var anchor := particles[0];
      CreateBox2x2(lib, 900.0, 100.0, 50.0, 0.0);
      assert particles[0] == anchor && PlacedAt(particles, 0, Vec(740.0, 100.0), 0.0, 15.0) && Distinct(particles);
      CreateBox2x2(lib, 500.0, 250.0, 50.0, 0.0);
      assert particles[0] == anchor && PlacedAt(particles, 0, Vec(740.0, 100.0), 0.0, 15.0) && Distinct(particles);
      CreateBox2x2(lib, 700.0, 250.0, 50.0, 0.0);
      assert particles[0] == anchor && PlacedAt(particles, 0, Vec(740.0, 100.0), 0.0, 15.0) && Distinct(particles);
      CreateBox2x2(lib, 300.0, 250.0, 50.0, 0.0);
      assert particles[0] == anchor && PlacedAt(particles, 0, Vec(740.0, 100.0), 0.0, 15.0) && Distinct(particles);
      CreateBox2x2(lib, 300.0, 100.0, 50.0, 0.0);
      assert particles[0] == anchor && PlacedAt(particles, 0, Vec(740.0, 100.0), 0.0, 15.0) && Distinct(particles);
      CreateBox2x2(lib, 300.0, 400.0, 50.0, 0.0);
    }

    /** The three links from the anchor at the end of the constructor. */
    method Anchors(lib: MathLib)
      requires dts != 0.0 && |particles| == 35 && |constraints| == 45
      modifies this
      ensures Settings() == old(Settings()) && polygons == old(polygons) && points == old(points)
      ensures collisionConstraints == old(collisionConstraints) && particles == old(particles)
      ensures |constraints| == 48 && constraints[..45] == old(constraints)
      ensures Joins(constraints[45], particles[0], particles[1], 1.0, dts)
      ensures Joins(constraints[46], particles[0], particles[5], 0.5, dts)
      ensures Joins(constraints[47], particles[0], particles[10], 0.1, dts)
    {
      var c0 := Join(lib, particles[0], particles[1], 1.0, dts);
      var c1 := Join(lib, particles[0], particles[5], 0.5, dts);
      var c2 := Join(lib, particles[0], particles[10], 0.1, dts);
      constraints := constraints + [c0, c1, c2];
      assert constraints[..45] == old(constraints);
    }

    /** createRope with this scene's mass, radius and dts. */
    method CreateRope(lib: MathLib, x: real, y: real, number: nat, space: real, stiffness: real)
      requires dts != 0.0
      modifies this
      ensures Settings() == old(Settings()) && polygons == old(polygons) && points == old(points)
      ensures collisionConstraints == old(collisionConstraints)
      ensures |particles| == |old(particles)| + number && particles[..|old(particles)|] == old(particles)
      ensures forall k :: |old(particles)| <= k < |particles| ==> fresh(particles[k])
      ensures old(Distinct(particles)) ==> Distinct(particles)
      ensures forall i :: 0 <= i < number ==> RopeAt(particles, |old(particles)|, i, x, y, number, space, mass, radius)
      ensures |constraints| == |old(constraints)| + RopeLinks(number) && constraints[..|old(constraints)|] == old(constraints)
      ensures forall i :: 0 <= i < RopeLinks(number) ==>
        ChainJoins(constraints, particles, |old(constraints)|, |old(particles)|, i, stiffness, dts)
    {
      particles, constraints := SceneFactories.CreateRope(lib, particles, constraints, x, y, number, space, stiffness, mass, radius, dts);
    }

    /** createBox2x2 with this scene's mass, radius and dts. */
    method CreateBox2x2(lib: MathLib, x: real, y: real, space: real, stiffness: real)
      requires dts != 0.0
      modifies this
      ensures Settings() == old(Settings()) && polygons == old(polygons) && points == old(points)
      ensures collisionConstraints == old(collisionConstraints)
      ensures |particles| == |old(particles)| + 4 && particles[..|old(particles)|] == old(particles)
      ensures forall k :: |old(particles)| <= k < |particles| ==> fresh(particles[k])
      ensures old(Distinct(particles)) ==> Distinct(particles)
      ensures BoxCorners(particles, |old(particles)|, x, y, space, mass, radius)
      ensures |constraints| == |old(constraints)| + 6 && constraints[..|old(constraints)|] == old(constraints)
      ensures BoxJoins(constraints, particles, |old(constraints)|, |old(particles)|, stiffness, dts)
    {
      particles, constraints := SceneFactories.CreateBox2x2(lib, particles, constraints, x, y, space, stiffness, mass, radius, dts);
    }
  }
}
