/** Particles: the records every phase of the solver updates in place. */
module Particles {
  import opened Vectors

  /** What the solver changes on a particle: its current position
      (positionX), its position at the start of the substep (positionP) and
      its velocity. */
  datatype Body = Body(x: Vec, p: Vec, v: Vec)

  /** A point mass. The mass, its inverse and the radius never change after
      construction; the positions and the velocity are reassigned by every
      phase of a substep. */
  class Particle {
    var positionX: Vec
    var positionP: Vec
    var velocity: Vec
    const m: real
    const w: real
    const radius: real

    /** `new Particle(x, y, mass, radius, color)`: at rest at (x, y). */
    constructor (x: real, y: real, mass: real, radius: real)
      ensures positionX == Vec(x, y) && positionP == Vec(x, y) && velocity == Zero
      ensures m == mass && w == InverseMass(mass) && this.radius == radius
    {
      positionX := Vec(x, y);
      positionP := Vec(x, y);
      velocity := Zero;
      m := mass;
      w := InverseMass(mass);
      this.radius := radius;
    }

    function State(): Body
      reads this
    {
      Body(positionX, positionP, velocity)
    }
  }

  /** The inverse mass; a mass of 0 marks a pinned particle, which gets
      inverse mass 0. */
  function InverseMass(mass: real): (w: real)
    ensures mass == 0.0 <==> w == 0.0
    ensures mass != 0.0 ==> w * mass == 1.0
  {
    if mass == 0.0 then 0.0 else 1.0 / mass
  }

  /** The state of a set of particles, as a value. */
  type World = map<Particle, Body>

  function Snap(s: set<Particle>): (r: World)
    reads s
    ensures r.Keys == s
  {
    map p | p in s :: p.State()
  }

  /** Writing back a particle's own state leaves a world as it is. */
  lemma MapUpdateSame(W: World, p: Particle)
    requires p in W
    ensures W[p := W[p]] == W
  {
  }

  /** The particles of a list, as a set. */
  function Members(ps: seq<Particle>): set<Particle>
  {
    set p | p in ps
  }

  /** Particles built one after another are distinct objects. */
  ghost predicate Distinct(ps: seq<Particle>)
  {
    forall i, j | 0 <= i < j < |ps| :: ps[i] != ps[j]
  }
}
