/** CollisionDetector.js: the collision pass that records environment
    contacts in the config, to be solved later, and separates overlapping
    particle pairs as soon as it finds them. */
module Detector {
  import opened Wrappers
  import opened Vectors
  import opened Particles
  import opened Corrections
  import opened Geometry
  import opened Polygons
  import opened Stages
  import opened Configs
  import C = Constraints
  import Phases

  /** An environment contact as a value: the fields of an
      EnvironmentCollisionConstraint. */
  datatype Contact = Contact(particle: Particle, q: Option<Vec>, n: Option<Vec>, mu: real)

  /** The contacts recorded in a list of environment constraints. */
  function Contacts(ecs: seq<C.EnvironmentCollisionConstraint>): seq<Contact>
  {
    seq(|ecs|, k requires 0 <= k < |ecs| => Contact(ecs[k].particle, ecs[k].q, ecs[k].n, ecs[k].mu))
  }

  lemma ContactsSnoc(ecs: seq<C.EnvironmentCollisionConstraint>, c: C.EnvironmentCollisionConstraint)
    ensures Contacts(ecs + [c]) == Contacts(ecs) + [Contact(c.particle, c.q, c.n, c.mu)]
  {
  }

  // ---------------------------------------------------------------------
  // checkBoundaryCollision

  /** The boundary clamp: without a canvas nothing; otherwise x is pulled
      back from the right wall, then pushed off the left wall, and y is
      pushed off the top. */
  function ClampedBody(canvas: Option<Canvas>, p: Particle, b: Body): (r: Body)
    ensures r.p == b.p && r.v == b.v
  {
    match canvas
    case None => b
    case Some(cv) => b.(x := Clamped(b.x, p.radius, cv.width))
  }

  /** The clamp does nothing without a canvas; with one, the particle ends
      at least `radius` from the left and top edges, and no more than
      `width − radius` across when the canvas is at least two radii wide. A
      particle already inside those bounds is left where it is. */
  lemma ClampedBodyMeaning(canvas: Option<Canvas>, p: Particle, b: Body)
    ensures canvas.None? ==> ClampedBody(canvas, p, b) == b
    ensures canvas.Some? ==>
      var r := ClampedBody(canvas, p, b);
      r.x.x >= p.radius && r.x.y >= p.radius &&
      (canvas.value.width >= 2.0 * p.radius ==> r.x.x <= canvas.value.width - p.radius) &&
      (p.radius <= b.x.x <= canvas.value.width - p.radius && p.radius <= b.x.y ==> r == b)
  {
    if canvas.Some? {
      ClampedMeaning(b.x, p.radius, canvas.value.width);
    }
  }

  /** The floor contact of a clamped body: one contact, at positionP's x on
      the floor line with the upward normal, exactly when the body is below
      that line; none otherwise, and none without a canvas. */
  function FloorContacts(canvas: Option<Canvas>, mu: real, p: Particle, b: Body): (r: seq<Contact>)
    ensures |r| <= 1
    ensures |r| == 1 <==> canvas.Some? && b.x.y > canvas.value.height - p.radius
    ensures |r| == 1 ==> r[0] == Contact(p, Some(Vec(b.p.x, canvas.value.height - p.radius)), Some(Vec(0.0, -1.0)), mu)
  {
    if canvas.Some? && BelowFloor(b.x, p.radius, canvas.value.height) then
      [Contact(p, Some(FloorPoint(b, p.radius, canvas.value.height)), Some(FloorNormal), mu)]
    else []
  }

  // ---------------------------------------------------------------------
  // checkPolygonCollision

  /** The contact of a polygon with a particle: the nearest edge projection
      of positionP and that edge's normal. */
  function PolygonContactOf(lib: MathLib, shape: seq<Vec>, p: Particle, at: Vec, mu: real): (c: Contact)
    ensures c.particle == p && c.mu == mu && (c.q.Some? <==> c.n.Some?)
    ensures c.q.None? <==> NearestUpTo(lib, shape, at, |shape|).None?
  {
    var cp := ContactOf(NearestUpTo(lib, shape, at, |shape|));
    Contact(p, cp.closestPoint, cp.normal, mu)
  }

  /** Which polygons the winding test says contain the point. */
  function Hits(lib: MathLib, shapes: seq<seq<Vec>>, x: Vec): (r: seq<bool>)
    ensures |r| == |shapes|
  {
    seq(|shapes|, j requires 0 <= j < |shapes| => Inside(lib, shapes[j], x))
  }

  /** The contact each polygon would give, taken at the point `at`. */
  function Offers(lib: MathLib, shapes: seq<seq<Vec>>, p: Particle, at: Vec, mu: real): (r: seq<Contact>)
    ensures |r| == |shapes|
  {
    seq(|shapes|, j requires 0 <= j < |shapes| => PolygonContactOf(lib, shapes[j], p, at, mu))
  }

  /** The contacts checkPolygonCollision records over the first k polygons:
      the offer of each polygon that is hit, in polygon order. */
  function Selected(hits: seq<bool>, offers: seq<Contact>, k: nat): seq<Contact>
    requires k <= |hits| && |hits| == |offers|
  {
    if k == 0 then []
    else Selected(hits, offers, k - 1) + (if hits[k - 1] then [offers[k - 1]] else [])
  }

  /** The number of hits among the first k polygons. */
  function Count(hits: seq<bool>, k: nat): nat
    requires k <= |hits|
  {
    if k == 0 then 0 else Count(hits, k - 1) + (if hits[k - 1] then 1 else 0)
  }

  /** One contact per polygon hit: as many contacts as hits, none exactly
      when nothing is hit, one per polygon when all are, and each contact
      is the offer of a polygon that was hit. */
  lemma {:induction false} SelectedMeaning(hits: seq<bool>, offers: seq<Contact>, k: nat)
    requires k <= |hits| && |hits| == |offers|
    ensures |Selected(hits, offers, k)| == Count(hits, k) <= k
    ensures Selected(hits, offers, k) == [] <==> forall j :: 0 <= j < k ==> !hits[j]
    ensures (forall j :: 0 <= j < k ==> hits[j]) ==> Count(hits, k) == k
    ensures forall c :: c in Selected(hits, offers, k) ==> exists j :: 0 <= j < k && hits[j] && c == offers[j]
  {
    if k > 0 {
      SelectedMeaning(hits, offers, k - 1);
      var front := Selected(hits, offers, k - 1);
      if hits[k - 1] {
        assert Selected(hits, offers, k) == front + [offers[k - 1]];
        forall c | c in Selected(hits, offers, k)
          ensures exists j :: 0 <= j < k && hits[j] && c == offers[j]
        {
          if c !in front {
            assert c == offers[k - 1];
          }
        }
      } else {
        assert Selected(hits, offers, k) == front;
      }
    }
  }

  lemma SelectedStep(hits: seq<bool>, offers: seq<Contact>, k: nat, c0: seq<Contact>, before: seq<Contact>, after: seq<Contact>)
    requires k < |hits| && |hits| == |offers|
    requires before == c0 + Selected(hits, offers, k)
    requires after == if hits[k] then before + [offers[k]] else before
    ensures after == c0 + Selected(hits, offers, k + 1)
  {
  }

  /** What a particle at b records over all polygons. */
  function PolygonContacts(lib: MathLib, shapes: seq<seq<Vec>>, mu: real, p: Particle, b: Body): seq<Contact>
  {
    Selected(Hits(lib, shapes, b.x), Offers(lib, shapes, p, b.p, mu), |shapes|)
  }

  /** checkPolygonCollision records, for the particle and with the config's
      μ, the contact of each polygon whose winding test contains positionX,
      taken at positionP, and nothing else; no polygon containing
      positionX means no contact. */
  lemma PolygonContactsMeaning(lib: MathLib, shapes: seq<seq<Vec>>, mu: real, p: Particle, b: Body)
    ensures forall c :: c in PolygonContacts(lib, shapes, mu, p, b) ==>
      c.particle == p && c.mu == mu &&
      exists j :: 0 <= j < |shapes| && Inside(lib, shapes[j], b.x) && c == PolygonContactOf(lib, shapes[j], p, b.p, mu)
    ensures PolygonContacts(lib, shapes, mu, p, b) == [] <==> forall j :: 0 <= j < |shapes| ==> !Inside(lib, shapes[j], b.x)
    ensures |PolygonContacts(lib, shapes, mu, p, b)| == Count(Hits(lib, shapes, b.x), |shapes|)
  {
    var hits, offers := Hits(lib, shapes, b.x), Offers(lib, shapes, p, b.p, mu);
    SelectedMeaning(hits, offers, |shapes|);
    assert forall j :: 0 <= j < |shapes| ==> hits[j] == Inside(lib, shapes[j], b.x);
    forall c | c in PolygonContacts(lib, shapes, mu, p, b)
      ensures c.particle == p && c.mu == mu
      ensures exists j :: 0 <= j < |shapes| && Inside(lib, shapes[j], b.x) && c == PolygonContactOf(lib, shapes[j], p, b.p, mu)
    {
      var j :| 0 <= j < |shapes| && hits[j] && c == offers[j];
      assert Inside(lib, shapes[j], b.x) && c == PolygonContactOf(lib, shapes[j], p, b.p, mu);
    }
  }

  // ---------------------------------------------------------------------
  // checkAndSolveParticleCollision

  /** The particles pa is paired with, in list order: every entry that is
      not pa itself. */
  function Partners(ps: seq<Particle>, pa: Particle): (r: seq<Particle>)
    ensures forall q :: q in r ==> q in ps
  {
    if ps == [] then []
    else Partners(ps[..|ps| - 1], pa) + (if ps[|ps| - 1] == pa then [] else [ps[|ps| - 1]])
  }

  /** pa is paired with exactly the other particles of the list: never with
      itself, and, when the list has no repeated entries, with each other
      particle once. */
  lemma {:induction false} PartnersMeaning(ps: seq<Particle>, pa: Particle)
    ensures forall q :: q in Partners(ps, pa) <==> q in ps && q != pa
    ensures Distinct(ps) ==> Distinct(Partners(ps, pa))
    ensures Distinct(ps) ==> |Partners(ps, pa)| == if pa in ps then |ps| - 1 else |ps|
  {
    if ps != [] {
      var front := ps[..|ps| - 1];
      var last := ps[|ps| - 1];
      assert ps == front + [last];
      PartnersMeaning(front, pa);
      if Distinct(ps) {
        assert Distinct(front);
        assert last !in front;
        assert pa in ps <==> pa in front || pa == last;
        if last == pa {
          assert pa !in front;
        }
      }
    }
  }

  /** Two different particles of a list are each other's partners: an
      overlapping pair is looked at once from each side. */
  lemma PairedFromBothSides(ps: seq<Particle>, pa: Particle, pb: Particle)
    requires pa in ps && pb in ps && pa != pb
    ensures pb in Partners(ps, pa) && pa in Partners(ps, pb)
  {
    PartnersMeaning(ps, pa);
    PartnersMeaning(ps, pb);
  }

  /** Every particle of the list has a state in W. */
  predicate Covers(ps: seq<Particle>, W: World)
  {
    forall q :: q in ps ==> q in W
  }

  /** checkAndSolveParticleCollision's loop over the list: an entry equal
      to pa is skipped, every other one is pushed apart from pa to 2·radius
      when closer. */
  function Sweep(lib: MathLib, pa: Particle, ps: seq<Particle>, radius: real, W: World): (r: World)
    requires pa in W && Covers(ps, W)
    ensures forall q :: q in W ==> q in r
  {
    if ps == [] then W
    else
      var n := |ps|;
      assert ps[n - 1] in ps && forall q :: q in ps[..n - 1] ==> q in ps;
      var prior := Sweep(lib, pa, ps[..n - 1], radius, W);
      if ps[n - 1] == pa then prior
      else PairUpdate(lib, prior, pa, ps[n - 1], radius * 2.0, radius * 2.0)
  }

  /** pa corrected against each of the given partners in turn: what the
      sweep is meant to do. */
  function PairWithAll(lib: MathLib, pa: Particle, partners: seq<Particle>, radius: real, W: World): (r: World)
    requires pa in W && Covers(partners, W)
    ensures forall q :: q in W ==> q in r
  {
    if partners == [] then W
    else
      var n := |partners|;
      assert partners[n - 1] in partners && forall q :: q in partners[..n - 1] ==> q in partners;
      PairUpdate(lib, PairWithAll(lib, pa, partners[..n - 1], radius, W), pa, partners[n - 1], radius * 2.0, radius * 2.0)
  }

  /** The sweep over the whole list is the correction of pa against its
      partners, in list order: never against itself, against every other
      particle. */
  lemma {:induction false} SweepPairsWithPartners(lib: MathLib, pa: Particle, ps: seq<Particle>, radius: real, W: World)
    requires pa in W && Covers(ps, W)
    ensures Covers(Partners(ps, pa), W)
    ensures Sweep(lib, pa, ps, radius, W) == PairWithAll(lib, pa, Partners(ps, pa), radius, W)
  {
    if ps != [] {
      var n := |ps|;
      var front := ps[..n - 1];
      assert forall q :: q in front ==> q in ps;
      SweepPairsWithPartners(lib, pa, front, radius, W);
      var partners := Partners(front, pa);
      var prior := Sweep(lib, pa, front, radius, W);
      assert prior == PairWithAll(lib, pa, partners, radius, W);
      if ps[n - 1] != pa {
        var last := ps[n - 1];
        assert Partners(ps, pa) == partners + [last];
        assert (partners + [last])[..|partners|] == partners;
        assert Sweep(lib, pa, ps, radius, W) == PairUpdate(lib, prior, pa, last, radius * 2.0, radius * 2.0);
      } else {
        assert Partners(ps, pa) == partners;
      }
    }
  }

  /** One step of the sweep loop: entry j is skipped when it is pa itself
      and visited otherwise. */
  lemma SweepStep(lib: MathLib, ps: seq<Particle>, pa: Particle, j: nat, radius: real, W: World, before: World, after: World)
    requires j < |ps| && pa in W && Covers(ps, W)
    requires before == Sweep(lib, pa, ps[..j], radius, W)
    requires after == if ps[j] == pa then before else PairUpdate(lib, before, pa, ps[j], radius * 2.0, radius * 2.0)
    ensures Covers(ps[..j + 1], W)
    ensures after == Sweep(lib, pa, ps[..j + 1], radius, W)
  {
    assert ps[..j + 1][..j] == ps[..j];
  }

  /** A pair just separated by the correction is exactly 2·radius apart, so
      the visit from the other side leaves it alone: the immediate reverse visit of a just-corrected pair
      is idle. The same holds for a pair that was not overlapping
      to begin with. */
  lemma RevisitIdle(lib: MathLib, W: World, pa: Particle, pb: Particle, gap: real)
    requires Sound(lib) && pa in W && pb in W && pa != pb && 0.0 <= gap
    requires (W[pa].x != W[pb].x && pa.w + pb.w != 0.0) || Length(lib, Sub(W[pb].x, W[pa].x)) >= gap
    ensures var r := PairUpdate(lib, W, pa, pb, gap, gap);
      PairUpdate(lib, r, pb, pa, gap, gap) == r
  {
    var r := PairUpdate(lib, W, pa, pb, gap, gap);
    PairUpdateMeaning(lib, W, pa, pb, gap, gap);
    assert Length(lib, Sub(r[pb].x, r[pa].x)) >= gap;
    LengthFlip(lib, r[pb].x, r[pa].x);
    PairCorrectionMeaning(lib, r[pb].x, r[pa].x, pb.w, pa.w, gap, gap);
  }

  lemma LengthFlip(lib: MathLib, a: Vec, b: Vec)
    ensures Length(lib, Sub(a, b)) == Length(lib, Sub(b, a))
  {
    var u, v := a.x - b.x, a.y - b.y;
    assert Mul(u, u) == Mul(-u, -u) && Mul(v, v) == Mul(-v, -v);
    assert Dot(Sub(a, b), Sub(a, b)) == Mul(u, u) + Mul(v, v);
    assert Dot(Sub(b, a), Sub(b, a)) == Mul(-u, -u) + Mul(-v, -v);
  }

  // ---------------------------------------------------------------------
  // findCollisions

  /** What one findCollisions pass reads: the particle list, the placed
      polygon vertices, the canvas, μ and the particle radius. */
  datatype Scan = Scan(particles: seq<Particle>, shapes: seq<seq<Vec>>, canvas: Option<Canvas>, mu: real, radius: real)

  /** One particle's turn on the world: the boundary clamp, then the sweep
      against every other particle. */
  function TurnWorld(lib: MathLib, s: Scan, p: Particle, W: World): (r: World)
    requires p in s.particles && Covers(s.particles, W)
    ensures Covers(s.particles, r)
  {
    Sweep(lib, p, s.particles, s.radius, W[p := ClampedBody(s.canvas, p, W[p])])
  }

  /** The contacts one particle's turn records, given its state before the
      turn: the floor contact and the polygon contacts of the clamped
      particle. */
  function TurnContacts(lib: MathLib, s: Scan, p: Particle, b: Body): seq<Contact>
  {
    var clamped := ClampedBody(s.canvas, p, b);
    FloorContacts(s.canvas, s.mu, p, clamped) + PolygonContacts(lib, s.shapes, s.mu, p, clamped)
  }

  /** The particles' states after the first k turns of findCollisions. */
  function WorldUpTo(lib: MathLib, s: Scan, W: World, k: nat): (r: World)
    requires k <= |s.particles| && Covers(s.particles, W)
    ensures Covers(s.particles, r)
  {
    if k == 0 then W else TurnWorld(lib, s, s.particles[k - 1], WorldUpTo(lib, s, W, k - 1))
  }

  /** The state in which each of the first k particles starts its turn. */
  function StartStates(lib: MathLib, s: Scan, W: World, k: nat): (r: seq<Body>)
    requires k <= |s.particles| && Covers(s.particles, W)
    ensures |r| == k
  {
    if k == 0 then []
    else
      var p := s.particles[k - 1];
      StartStates(lib, s, W, k - 1) + [WorldUpTo(lib, s, W, k - 1)[p]]
  }

  /** The contacts recorded by the turns of the first |starts| particles
      when each starts its turn in the given state; the list starts
      empty. */
  function ContactsAlong(lib: MathLib, s: Scan, starts: seq<Body>): seq<Contact>
    requires |starts| <= |s.particles|
  {
    if starts == [] then []
    else
      var n := |starts|;
      ContactsAlong(lib, s, starts[..n - 1]) + TurnContacts(lib, s, s.particles[n - 1], starts[n - 1])
  }

  /** One pass of findCollisions' loop extends the first i turns to i + 1. */
  lemma TurnStep(lib: MathLib, s: Scan, W0: World, i: nat, W: World, clamped: World, after: World,
                 contacts: seq<Contact>, contactsAfter: seq<Contact>)
    requires i < |s.particles| && Covers(s.particles, W0)
    requires W == WorldUpTo(lib, s, W0, i) && contacts == ContactsAlong(lib, s, StartStates(lib, s, W0, i))
    requires clamped == W[s.particles[i] := ClampedBody(s.canvas, s.particles[i], W[s.particles[i]])]
    requires after == Sweep(lib, s.particles[i], s.particles, s.radius, clamped)
    requires contactsAfter == contacts + TurnContacts(lib, s, s.particles[i], W[s.particles[i]])
    ensures after == WorldUpTo(lib, s, W0, i + 1)
    ensures contactsAfter == ContactsAlong(lib, s, StartStates(lib, s, W0, i + 1))
  {
    var starts := StartStates(lib, s, W0, i);
    assert StartStates(lib, s, W0, i + 1) == starts + [W[s.particles[i]]];
    ContactsAlongSnoc(lib, s, starts, W[s.particles[i]]);
  }

  /** One more turn appends that turn's contacts. */
  lemma ContactsAlongSnoc(lib: MathLib, s: Scan, starts: seq<Body>, b: Body)
    requires |starts| < |s.particles|
    ensures ContactsAlong(lib, s, starts + [b]) == ContactsAlong(lib, s, starts) + TurnContacts(lib, s, s.particles[|starts|], b)
  {
    assert (starts + [b])[..|starts|] == starts;
  }

  /** A turn records contacts only for its own particle, with the config's
      μ, and none without a canvas and without polygons. */
  lemma TurnContactsMeaning(lib: MathLib, s: Scan, p: Particle, b: Body)
    ensures forall c :: c in TurnContacts(lib, s, p, b) ==> c.particle == p && c.mu == s.mu
    ensures s.canvas.None? && s.shapes == [] ==> TurnContacts(lib, s, p, b) == []
  {
    var clamped := ClampedBody(s.canvas, p, b);
    PolygonContactsMeaning(lib, s.shapes, s.mu, p, clamped);
  }

  /** Whatever states the particles start their turns in, every recorded
      contact is about a particle already scanned and carries the config's
      μ, and without a canvas and without polygons nothing is recorded. */
  lemma {:induction false} DetectContacts(lib: MathLib, s: Scan, starts: seq<Body>)
    requires |starts| <= |s.particles|
    ensures forall c :: c in ContactsAlong(lib, s, starts) ==> c.particle in s.particles[..|starts|] && c.mu == s.mu
    ensures s.canvas.None? && s.shapes == [] ==> ContactsAlong(lib, s, starts) == []
  {
    if starts != [] {
      var n := |starts|;
      DetectContacts(lib, s, starts[..n - 1]);
      var p := s.particles[n - 1];
      TurnContactsMeaning(lib, s, p, starts[n - 1]);
      ContactsStep(ContactsAlong(lib, s, starts[..n - 1]), TurnContacts(lib, s, p, starts[n - 1]), s.particles[..n - 1], p, s.mu);
      assert s.particles[..n] == s.particles[..n - 1] + [p];
    }
  }

  lemma ContactsStep(front: seq<Contact>, added: seq<Contact>, ps: seq<Particle>, p: Particle, mu: real)
    requires forall c :: c in front ==> c.particle in ps && c.mu == mu
    requires forall c :: c in added ==> c.particle == p && c.mu == mu
    ensures forall c :: c in front + added ==> c.particle in ps + [p] && c.mu == mu
  {
  }

  /** CollisionDetector.js: works on the config it was given. */
  class CollisionDetector {
    const config: Config

    constructor (config: Config)
      ensures this.config == config
    {
      this.config := config;
    }

    ghost function Bodies(): set<Particle>
      reads config
    {
      Members(config.particles)
    }

    /** The inputs of a pass, read from the config. */
    ghost function Current(): Scan
      reads config, config.polygons
    {
      Scan(config.particles, Shapes(config.polygons), config.canvas, config.mu, config.radius)
    }

    /** The config holds what s records: the same particle list, polygons
        placed at s's vertices, canvas, μ and radius. */
    ghost predicate Reading(s: Scan)
      reads config, config.polygons
    {
      config.particles == s.particles && ShapesAre(config.polygons, s.shapes) &&
      config.canvas == s.canvas && config.mu == s.mu && config.radius == s.radius
    }

    /** Only the contact list of the config changes. */
    ghost predicate Kept(settings: Settings, particles: seq<Particle>, constraints: seq<C.DistanceConstraint>,
                         volumeConstraints: seq<C.VolumeConstraint>, polygons: seq<Polygon>)
      reads config
    {
      config.Scalars() == settings && config.particles == particles && config.constraints == constraints &&
      config.volumeConstraints == volumeConstraints && config.polygons == polygons
    }

    /** findCollisions: the contact list is emptied first, then every
        particle takes its turn; the particles end in the states Detect
        computes and the list holds exactly the contacts it records. */
    method FindCollisions(lib: MathLib)
      modifies config, config.particles
      ensures Kept(old(config.Scalars()), old(config.particles), old(config.constraints),
                   old(config.volumeConstraints), old(config.polygons))
      ensures Current() == old(Current())
      ensures Snap(Bodies()) == WorldUpTo(lib, old(Current()), old(Snap(Bodies())), |old(config.particles)|)
      ensures Contacts(config.environmentCollisionConstraints)
           == ContactsAlong(lib, old(Current()), StartStates(lib, old(Current()), old(Snap(Bodies())), |old(config.particles)|))
    {
      ghost var s := Current();
      assert Reading(s);
      ghost var S := Bodies();
      ghost var W0 := Snap(S);
      ghost var settings, constraints, volumeConstraints := config.Scalars(), config.constraints, config.volumeConstraints;
      var particles := config.particles;
      var polygons := config.polygons;
      config.environmentCollisionConstraints := [];
      for i := 0 to |particles|
        invariant Kept(settings, particles, constraints, volumeConstraints, polygons)
        invariant ShapesAre(polygons, s.shapes)
        invariant Snap(S) == WorldUpTo(lib, s, W0, i)
        invariant Contacts(config.environmentCollisionConstraints) == ContactsAlong(lib, s, StartStates(lib, s, W0, i))
      {
        var particle := particles[i];
        ghost var W, contacts := Snap(S), Contacts(config.environmentCollisionConstraints);
        CheckEnvironment(lib, particle, s, S);
        ghost var clamped := Snap(S);
        CheckAndSolveParticleCollision(lib, particle, S, s.shapes);
        TurnStep(lib, s, W0, i, W, clamped, Snap(S), contacts, Contacts(config.environmentCollisionConstraints));
      }
    }

    /** The environment half of one pass of findCollisions' loop: the
        boundary check, then the polygon check, of one particle. */
    method CheckEnvironment(lib: MathLib, particle: Particle, ghost s: Scan, ghost S: set<Particle>)
      requires Reading(s) && Bodies() == S && particle in S
      modifies config, particle
      ensures Kept(old(config.Scalars()), old(config.particles), old(config.constraints),
                   old(config.volumeConstraints), old(config.polygons))
      ensures ShapesAre(config.polygons, s.shapes)
      ensures Snap(S) == old(Snap(S))[particle := ClampedBody(s.canvas, particle, old(Snap(S))[particle])]
      ensures Contacts(config.environmentCollisionConstraints)
           == old(Contacts(config.environmentCollisionConstraints)) + TurnContacts(lib, s, particle, old(Snap(S))[particle])
    {
      ghost var W := Snap(S);
      ghost var contacts := Contacts(config.environmentCollisionConstraints);
      CheckBoundaryCollision(particle, s.shapes);
      ghost var clamped := particle.State();
      assert Snap(S) == W[particle := clamped];
      CheckPolygonCollision(lib, particle, s.shapes);
    }

    /** checkBoundaryCollision: positionX is clamped into the canvas, and a
        particle below the floor line gets a floor contact recorded; the
        floor contact does not move it. */
    method CheckBoundaryCollision(particle: Particle, ghost shapes: seq<seq<Vec>>)
      requires ShapesAre(config.polygons, shapes)
      modifies particle, config
      ensures ShapesAre(config.polygons, shapes)
      ensures particle.State() == ClampedBody(old(config.canvas), particle, old(particle.State()))
      ensures Contacts(config.environmentCollisionConstraints)
           == old(Contacts(config.environmentCollisionConstraints)) + FloorContacts(config.canvas, config.mu, particle, particle.State())
      ensures Kept(old(config.Scalars()), old(config.particles), old(config.constraints),
                   old(config.volumeConstraints), old(config.polygons))
    {
      var canvas := config.canvas;
      if canvas.None? {
        return;
      }
      var width, height := canvas.value.width, canvas.value.height;
      if particle.positionX.x > width - particle.radius {
        particle.positionX := particle.positionX.(x := width - particle.radius);
      }
      if particle.positionX.x < particle.radius {
        particle.positionX := particle.positionX.(x := particle.radius);
      }
      if particle.positionX.y < particle.radius {
        particle.positionX := particle.positionX.(y := particle.radius);
      }
      if particle.positionX.y > height - particle.radius {
        var q := Vec(particle.positionP.x, height - particle.radius);
        var n := Vec(0.0, -1.0);
        ghost var before := config.environmentCollisionConstraints;
        var constraint := config.AddEnvironmentCollisionConstraint(particle, Some(q), Some(n));
        ContactsSnoc(before, constraint);
      }
    }

    /** checkPolygonCollision: one contact recorded per polygon whose
        winding test contains positionX, at the nearest edge projection of
        positionP; the particle does not move. */
    method CheckPolygonCollision(lib: MathLib, particle: Particle, ghost shapes: seq<seq<Vec>>)
      requires ShapesAre(config.polygons, shapes)
      modifies config
      ensures ShapesAre(config.polygons, shapes)
      ensures Contacts(config.environmentCollisionConstraints)
           == old(Contacts(config.environmentCollisionConstraints))
              + PolygonContacts(lib, shapes, config.mu, particle, particle.State())
      ensures Kept(old(config.Scalars()), old(config.particles), old(config.constraints),
                   old(config.volumeConstraints), old(config.polygons))
    {
      ghost var settings, particles, constraints, volumeConstraints := config.Scalars(), config.particles, config.constraints, config.volumeConstraints;
      var polygons := config.polygons;
      ghost var c0 := Contacts(config.environmentCollisionConstraints);
      ghost var hits, offers := Hits(lib, shapes, particle.positionX), Offers(lib, shapes, particle, particle.positionP, settings.mu);
      for k := 0 to |polygons|
        invariant Kept(settings, particles, constraints, volumeConstraints, polygons)
        invariant ShapesAre(polygons, shapes)
        invariant Contacts(config.environmentCollisionConstraints) == c0 + Selected(hits, offers, k)
      {
        ghost var before := Contacts(config.environmentCollisionConstraints);
        CheckOnePolygon(lib, particle, polygons[k]);
        SelectedStep(hits, offers, k, c0, before, Contacts(config.environmentCollisionConstraints));
      }
    }

    /** The body of checkPolygonCollision's loop for one polygon: a contact
        at the nearest edge projection of positionP when the winding test
        contains positionX. */
    method CheckOnePolygon(lib: MathLib, particle: Particle, polygon: Polygon)
      modifies config
      ensures Contacts(config.environmentCollisionConstraints)
           == old(Contacts(config.environmentCollisionConstraints))
              + (if Inside(lib, polygon.transformedPoints, particle.positionX)
                 then [PolygonContactOf(lib, polygon.transformedPoints, particle, particle.positionP, config.mu)]
                 else [])
      ensures Kept(old(config.Scalars()), old(config.particles), old(config.constraints),
                   old(config.volumeConstraints), old(config.polygons))
    {
      var inside := PointInPolygon(lib, polygon.transformedPoints, particle.positionX);
      if inside {
        // closestPointOnPolygon always returns a record, so the source's
        // null guard never skips a contained polygon.
        var cp := ClosestPointOnPolygon(lib, polygon.transformedPoints, particle.positionP);
        ghost var before := config.environmentCollisionConstraints;
        var constraint := config.AddEnvironmentCollisionConstraint(particle, cp.closestPoint, cp.normal);
        ContactsSnoc(before, constraint);
      }
    }

    /** checkAndSolveParticleCollision: particleA against every particle of
        the list other than itself, pushed apart to 2·radius when closer. */
    method CheckAndSolveParticleCollision(lib: MathLib, particleA: Particle, ghost S: set<Particle>, ghost shapes: seq<seq<Vec>>)
      requires particleA in S && (forall q :: q in config.particles ==> q in S) && ShapesAre(config.polygons, shapes)
      modifies particleA, config.particles
      ensures unchanged(config) && ShapesAre(config.polygons, shapes)
      ensures Snap(S) == Sweep(lib, particleA, config.particles, config.radius, old(Snap(S)))
    {
      var particles, radius := config.particles, config.radius;
      ghost var W0 := Snap(S);
      assert Covers(particles, W0);
      for j := 0 to |particles|
        invariant Covers(particles[..j], W0)
        invariant Snap(S) == Sweep(lib, particleA, particles[..j], radius, W0)
      {
        SweepTurn(lib, particleA, particles, j, radius, W0, S);
      }
      assert particles[..|particles|] == particles;
    }

    /** One pass of checkAndSolveParticleCollision's loop: particleA against
        entry j, skipped when it is particleA itself. */
    method SweepTurn(lib: MathLib, particleA: Particle, particles: seq<Particle>, j: nat, radius: real, ghost W0: World,
                     ghost S: set<Particle>)
      requires j < |particles| && particleA in S && particleA in W0
      requires (forall q :: q in particles ==> q in S) && Covers(particles, W0) && Covers(particles[..j], W0)
      requires Snap(S) == Sweep(lib, particleA, particles[..j], radius, W0)
      modifies particleA, particles[j]
      ensures Covers(particles[..j + 1], W0)
      ensures Snap(S) == Sweep(lib, particleA, particles[..j + 1], radius, W0)
    {
      ghost var before := Snap(S);
      var particleB := particles[j];
      if particleA != particleB {
        Phases.SeparatePair(lib, particleA, particleB, radius * 2.0, radius * 2.0, S);
      }
      SweepStep(lib, particles, particleA, j, radius, W0, before, Snap(S));
    }
  }
}
