/** The closed-form collision geometry shared by the solver variants:
    projection onto a segment, segment intersection, the winding-angle
    containment test and the nearest point of a polygon outline. */
module Geometry {
  import opened Wrappers
  import opened Vectors

  /** The point a + t·(b − a) of the line through a and b. */
  function PointOnLine(a: Vec, b: Vec, t: real): Vec { Add(a, Scale(Sub(b, a), t)) }

  /** x lies on the closed segment from a to b. */
  ghost predicate OnSegment(x: Vec, a: Vec, b: Vec)
  {
    exists t :: 0.0 <= t <= 1.0 && x == PointOnLine(a, b, t)
  }

  /** t = (AP·AB)/(AB·AB), the line parameter of the foot of the
      perpendicular from p. */
  function SegmentParameter(p: Vec, a: Vec, b: Vec): real
  {
    Quot(Dot(Sub(p, a), Sub(b, a)), Dot(Sub(b, a), Sub(b, a)))
  }

  /** closestPointOnSegment: the foot of the perpendicular from p when it
      falls within the segment, and None (null) otherwise. The source divides
      by |b − a|², so a degenerate segment is excluded. */
  function ClosestPointOnSegment(p: Vec, a: Vec, b: Vec): Option<Vec>
    requires a != b
  {
    var t := SegmentParameter(p, a, b);
    if t < 0.0 || t > 1.0 then None else Some(PointOnLine(a, b, t))
  }

  lemma EdgeSquaredPositive(a: Vec, b: Vec)
    requires a != b
    ensures 0.0 < Dot(Sub(b, a), Sub(b, a))
  {
    DotSelf(Sub(b, a));
  }

  /** How far the point at parameter s is from being a perpendicular foot. */
  lemma FootResidual(p: Vec, a: Vec, b: Vec, s: real)
    requires a != b
    ensures Dot(Sub(p, PointOnLine(a, b, s)), Sub(b, a))
         == Mul(SegmentParameter(p, a, b) - s, Dot(Sub(b, a), Sub(b, a)))
  {
    var ab := Sub(b, a);
    EdgeSquaredPositive(a, b);
    var n := Dot(Sub(p, a), ab);
    var d := Dot(ab, ab);
    assert SegmentParameter(p, a, b) * d == n;
    assert Dot(Sub(p, PointOnLine(a, b, s)), ab) == n - s * d;
  }

  /** The projection is the unique point of the line whose offset from p is
      perpendicular to the segment; closestPointOnSegment returns it exactly
      when it lies on the segment, and None exactly when no point of the
      segment is such a foot. */
  lemma ClosestPointOnSegmentIsFoot(p: Vec, a: Vec, b: Vec)
    requires a != b
    ensures ClosestPointOnSegment(p, a, b).Some? ==>
      var r := ClosestPointOnSegment(p, a, b).value;
      OnSegment(r, a, b) && Dot(Sub(p, r), Sub(b, a)) == 0.0
    ensures ClosestPointOnSegment(p, a, b).None? <==>
      forall s :: 0.0 <= s <= 1.0 ==> Dot(Sub(p, PointOnLine(a, b, s)), Sub(b, a)) != 0.0
  {
    var t := SegmentParameter(p, a, b);
    EdgeSquaredPositive(a, b);
    FootResidual(p, a, b, t);
    if ClosestPointOnSegment(p, a, b).None? {
      forall s | 0.0 <= s <= 1.0
        ensures Dot(Sub(p, PointOnLine(a, b, s)), Sub(b, a)) != 0.0
      {
        FootResidual(p, a, b, s);
        MulNonZero(t - s, Dot(Sub(b, a), Sub(b, a)));
      }
    }
  }

  /** |u + k·w|² expanded. */
  lemma DotExpand(u: Vec, w: Vec, k: real)
    ensures Dot(Add(u, Scale(w, k)), Add(u, Scale(w, k)))
         == Dot(u, u) + 2.0 * k * Dot(u, w) + Mul(Mul(k, k), Dot(w, w))
  {
  }

  /** The projection returned by closestPointOnSegment is the point of the
      segment nearest to p. */
  lemma ClosestPointOnSegmentIsNearest(lib: MathLib, p: Vec, a: Vec, b: Vec, s: real)
    requires Sound(lib) && a != b && 0.0 <= s <= 1.0
    requires ClosestPointOnSegment(p, a, b).Some?
    ensures Length(lib, Sub(p, ClosestPointOnSegment(p, a, b).value))
         <= Length(lib, Sub(p, PointOnLine(a, b, s)))
  {
    var t := SegmentParameter(p, a, b);
    ClosestPointOnSegmentIsFoot(p, a, b);
    FootIsNearestOnLine(p, a, b, t, s);
    LengthMonotone(lib, Sub(p, PointOnLine(a, b, t)), Sub(p, PointOnLine(a, b, s)));
  }

  /** Pythagoras along the line: a perpendicular foot is nearer than any
      other point of the line. */
  lemma FootIsNearestOnLine(p: Vec, a: Vec, b: Vec, t: real, s: real)
    requires Dot(Sub(p, PointOnLine(a, b, t)), Sub(b, a)) == 0.0
    ensures Dot(Sub(p, PointOnLine(a, b, t)), Sub(p, PointOnLine(a, b, t)))
         <= Dot(Sub(p, PointOnLine(a, b, s)), Sub(p, PointOnLine(a, b, s)))
  {
    var ab := Sub(b, a);
    var f := PointOnLine(a, b, t);
    assert Sub(p, PointOnLine(a, b, s)) == Add(Sub(p, f), Scale(ab, t - s));
    DotExpand(Sub(p, f), ab, t - s);
    SquareNonNegative(t - s);
    DotSelf(ab);
    MulNonNegative(Mul(t - s, t - s), Dot(ab, ab));
  }

  /** Line parameter of the crossing on p1p2: cross(q1 − p1, s)/cross(r, s). */
  function CrossingT(p1: Vec, p2: Vec, q1: Vec, q2: Vec): real
  {
    Quot(Cross(Sub(q1, p1), Sub(q2, q1)), Cross(Sub(p2, p1), Sub(q2, q1)))
  }

  /** Line parameter of the crossing on q1q2: cross(q1 − p1, r)/cross(r, s). */
  function CrossingU(p1: Vec, p2: Vec, q1: Vec, q2: Vec): real
  {
    Quot(Cross(Sub(q1, p1), Sub(p2, p1)), Cross(Sub(p2, p1), Sub(q2, q1)))
  }

  /** lineSegmentsIntersect: the crossing point of the segments p1p2 and
      q1q2, or None (null) when they are parallel or collinear, that is
      cross(r, s) = 0, or when the crossing of the two lines lies outside
      either segment. */
  function LineSegmentsIntersect(p1: Vec, p2: Vec, q1: Vec, q2: Vec): Option<Vec>
  {
    if Cross(Sub(p2, p1), Sub(q2, q1)) == 0.0 then None
    else
      var t := CrossingT(p1, p2, q1, q2);
      var u := CrossingU(p1, p2, q1, q2);
      if 0.0 <= t <= 1.0 && 0.0 <= u <= 1.0 then Some(PointOnLine(p1, p2, t)) else None
  }

  /** The two segments share a point. */
  ghost predicate SegmentsMeet(p1: Vec, p2: Vec, q1: Vec, q2: Vec)
  {
    exists t, u :: 0.0 <= t <= 1.0 && 0.0 <= u <= 1.0 && PointOnLine(p1, p2, t) == PointOnLine(q1, q2, u)
  }

  lemma QuotientCombination(a: real, b: real, c: real, rx: real, sx: real, dx: real)
    requires c != 0.0 && a * rx - b * sx == dx * c
    ensures Quot(a, c) * rx - Quot(b, c) * sx == dx
  {
    assert Quot(a, c) * rx - Quot(b, c) * sx == (a * rx - b * sx) / c;
  }

  /** Off the parallel case, the parameters CrossingT and CrossingU name the
      same point on the two lines. */
  lemma CrossingOnBothLines(p1: Vec, p2: Vec, q1: Vec, q2: Vec)
    requires Cross(Sub(p2, p1), Sub(q2, q1)) != 0.0
    ensures PointOnLine(p1, p2, CrossingT(p1, p2, q1, q2)) == PointOnLine(q1, q2, CrossingU(p1, p2, q1, q2))
  {
    var r := Sub(p2, p1);
    var s := Sub(q2, q1);
    var d := Sub(q1, p1);
    var c := Cross(r, s);
    assert Cross(d, s) * r.x - Cross(d, r) * s.x == d.x * c;
    assert Cross(d, s) * r.y - Cross(d, r) * s.y == d.y * c;
    QuotientCombination(Cross(d, s), Cross(d, r), c, r.x, s.x, d.x);
    QuotientCombination(Cross(d, s), Cross(d, r), c, r.y, s.y, d.y);
  }

  /** Off the parallel case, a common point of the two lines has exactly the
      parameters CrossingT and CrossingU. */
  lemma CrossingUnique(p1: Vec, p2: Vec, q1: Vec, q2: Vec, t: real, u: real)
    requires Cross(Sub(p2, p1), Sub(q2, q1)) != 0.0
    requires PointOnLine(p1, p2, t) == PointOnLine(q1, q2, u)
    ensures t == CrossingT(p1, p2, q1, q2) && u == CrossingU(p1, p2, q1, q2)
  {
    var r := Sub(p2, p1);
    var s := Sub(q2, q1);
    var d := Sub(q1, p1);
    assert t * r.x - u * s.x == d.x;
    assert t * r.y - u * s.y == d.y;
    SolveCrossing(t, u, r, s, d);
  }

  lemma SolveCrossing(t: real, u: real, r: Vec, s: Vec, d: Vec)
    requires Cross(r, s) != 0.0
    requires t * r.x - u * s.x == d.x && t * r.y - u * s.y == d.y
    ensures t == Quot(Cross(d, s), Cross(r, s)) && u == Quot(Cross(d, r), Cross(r, s))
  {
    assert Cross(d, s) == (t * r.x - u * s.x) * s.y - (t * r.y - u * s.y) * s.x;
    assert Cross(d, s) == t * Cross(r, s);
    assert Cross(d, r) == (t * r.x - u * s.x) * r.y - (t * r.y - u * s.y) * r.x;
    assert Cross(d, r) == u * Cross(r, s);
  }

  /** lineSegmentsIntersect returns a point exactly when the segments are not
      parallel and meet, and the point it returns lies on both segments. In
      particular parallel and collinear segments alike give None. */
  lemma LineSegmentsIntersectMeaning(p1: Vec, p2: Vec, q1: Vec, q2: Vec)
    ensures LineSegmentsIntersect(p1, p2, q1, q2).Some? <==>
      Cross(Sub(p2, p1), Sub(q2, q1)) != 0.0 && SegmentsMeet(p1, p2, q1, q2)
    ensures LineSegmentsIntersect(p1, p2, q1, q2).Some? ==>
      OnSegment(LineSegmentsIntersect(p1, p2, q1, q2).value, p1, p2) &&
      OnSegment(LineSegmentsIntersect(p1, p2, q1, q2).value, q1, q2)
  {
    if Cross(Sub(p2, p1), Sub(q2, q1)) != 0.0 {
      var t := CrossingT(p1, p2, q1, q2);
      var u := CrossingU(p1, p2, q1, q2);
      CrossingOnBothLines(p1, p2, q1, q2);
      if SegmentsMeet(p1, p2, q1, q2) {
        var t0, u0 :| 0.0 <= t0 <= 1.0 && 0.0 <= u0 <= 1.0 && PointOnLine(p1, p2, t0) == PointOnLine(q1, q2, u0);
        CrossingUnique(p1, p2, q1, q2, t0, u0);
      }
    }
  }

  // ---------------------------------------------------------------------
  // pointInPolygon: the winding-angle test.

  /** The signed angle the edge a→b subtends at `point`: atan2 of the cross
      and dot products of a − point and b − point. */
  function EdgeAngle(lib: MathLib, point: Vec, a: Vec, b: Vec): real
  {
    lib.atan2(Cross(Sub(a, point), Sub(b, point)), Dot(Sub(a, point), Sub(b, point)))
  }

  /** The index after i in a cyclic list of n entries: (i + 1) mod n. */
  function Next(i: nat, n: nat): nat
    requires i < n
  {
    if i + 1 < n then i + 1 else 0
  }

  /** Edge i of a closed polygon runs from vertex i to vertex (i + 1) mod n. */
  function EdgeAngleAt(lib: MathLib, points: seq<Vec>, point: Vec, i: nat): real
    requires i < |points|
  {
    EdgeAngle(lib, point, points[i], points[Next(i, |points|)])
  }

  /** The total angle accumulated over the first n edges. */
  function WindingSum(lib: MathLib, points: seq<Vec>, point: Vec, n: nat): real
    requires n <= |points|
  {
    if n == 0 then 0.0 else WindingSum(lib, points, point, n - 1) + EdgeAngleAt(lib, points, point, n - 1)
  }

  /** The source's cut-off on the magnitude of the total angle. */
  const WindingThreshold: real := 0.000001

  /** The point counts as inside when the total angle exceeds the cut-off in
      magnitude. */
  predicate Inside(lib: MathLib, points: seq<Vec>, point: Vec)
  {
    Abs(WindingSum(lib, points, point, |points|)) > WindingThreshold
  }

  /** pointInPolygon: sums the edge angles in vertex order and compares the
      magnitude of the total with the cut-off. A polygon without vertices
      contains nothing. */
  method PointInPolygon(lib: MathLib, points: seq<Vec>, point: Vec) returns (inside: bool)
    ensures inside == Inside(lib, points, point)
    ensures |points| == 0 ==> !inside
  {
    var totalAngle := 0.0;
    var i := 0;
    while i < |points|
      invariant 0 <= i <= |points|
      invariant totalAngle == WindingSum(lib, points, point, i)
    {
      NextIndex(i, |points|);
      var a := points[i];
      var b := points[(i + 1) % |points|];
      var v1 := Sub(a, point);
      var v2 := Sub(b, point);
      var dot := Dot(v1, v2);
      var det := Cross(v1, v2);
      var angle := lib.atan2(det, dot);
      totalAngle := totalAngle + angle;
      i := i + 1;
    }
    inside := Abs(totalAngle) > WindingThreshold;
  }

  /** The vertex list started one vertex later. */
  function RotateVertices(points: seq<Vec>): seq<Vec>
    requires |points| > 0
  {
    points[1..] + [points[0]]
  }

  /** The winding test does not depend on which vertex the list starts at:
      the edges of the rotated list are the same edges, shifted by one. */
  lemma InsideRotationInvariant(lib: MathLib, points: seq<Vec>, point: Vec)
    requires |points| > 0
    ensures WindingSum(lib, RotateVertices(points), point, |points|) == WindingSum(lib, points, point, |points|)
    ensures Inside(lib, RotateVertices(points), point) == Inside(lib, points, point)
  {
    var n := |points|;
    var rotated := RotateVertices(points);
    RotatedPrefix(lib, points, point, n - 1);
    RotatedEdge(lib, points, point, n - 1);
  }

  lemma RotatedEdge(lib: MathLib, points: seq<Vec>, point: Vec, i: nat)
    requires i < |points|
    ensures EdgeAngleAt(lib, RotateVertices(points), point, i) == EdgeAngleAt(lib, points, point, Next(i, |points|))
  {
    var n := |points|;
    var rotated := RotateVertices(points);
    assert rotated[i] == points[Next(i, n)];
    assert rotated[Next(i, n)] == points[Next(Next(i, n), n)];
  }

  /** The successor index Next(i, n) is (i + 1) mod n. */
  lemma NextIndex(i: nat, n: nat)
    requires i < n
    ensures (i + 1) % n == Next(i, n)
  {
  }

  lemma {:induction false} RotatedPrefix(lib: MathLib, points: seq<Vec>, point: Vec, k: nat)
    requires k < |points|
    ensures WindingSum(lib, RotateVertices(points), point, k)
         == WindingSum(lib, points, point, k + 1) - EdgeAngleAt(lib, points, point, 0)
  {
    if k > 0 {
      var rotated := RotateVertices(points);
      RotatedPrefix(lib, points, point, k - 1);
      RotatedEdge(lib, points, point, k - 1);
      var e := EdgeAngleAt(lib, points, point, k);
      assert EdgeAngleAt(lib, rotated, point, k - 1) == e;
      assert WindingSum(lib, rotated, point, k) == WindingSum(lib, rotated, point, k - 1) + e;
    }
  }

  /** The vertex list moved by the offset o. */
  function TranslateVertices(points: seq<Vec>, o: Vec): (r: seq<Vec>)
    ensures |r| == |points|
    ensures forall i :: 0 <= i < |points| ==> r[i] == Add(points[i], o)
  {
    seq(|points|, i requires 0 <= i < |points| => Add(points[i], o))
  }

  /** Moving the polygon and the point by the same offset leaves every edge
      angle, hence the test, unchanged. */
  lemma {:induction false} WindingTranslationInvariant(lib: MathLib, points: seq<Vec>, point: Vec, o: Vec, n: nat)
    requires n <= |points|
    ensures WindingSum(lib, TranslateVertices(points, o), Add(point, o), n) == WindingSum(lib, points, point, n)
  {
    if n > 0 {
      WindingTranslationInvariant(lib, points, point, o, n - 1);
      var moved := TranslateVertices(points, o);
      var j := Next(n - 1, |points|);
      assert Sub(moved[n - 1], Add(point, o)) == Sub(points[n - 1], point);
      assert Sub(moved[j], Add(point, o)) == Sub(points[j], point);
    }
  }

  lemma InsideTranslationInvariant(lib: MathLib, points: seq<Vec>, point: Vec, o: Vec)
    ensures Inside(lib, TranslateVertices(points, o), Add(point, o)) == Inside(lib, points, point)
  {
    WindingTranslationInvariant(lib, points, point, o, |points|);
  }

  // ---------------------------------------------------------------------
  // closestPointOnPolygon: the nearest edge projection.

  /** What closestPointOnPolygon returns: an object that is always present,
      whose two fields are null when no edge admits a projection. */
  datatype PolygonContact = PolygonContact(normal: Option<Vec>, closestPoint: Option<Vec>)

  /** One edge's offer: the distance from the query point to its projection,
      the projection, and the edge normal (−t.y, t.x) with t the normalized
      a − b. */
  datatype Candidate = Candidate(distance: real, point: Vec, normal: Vec)

  /** The offer of edge i, if any. A degenerate edge (a == b) offers nothing:
      its projection parameter is 0/0, the resulting point and distance are
      NaN, and NaN never compares below the running minimum. */
  function EdgeCandidate(lib: MathLib, points: seq<Vec>, p: Vec, i: nat): Option<Candidate>
    requires i < |points|
  {
    Offer(lib, p, points[i], points[(i + 1) % |points|])
  }

  /** The offer of the edge a→b. */
  function Offer(lib: MathLib, p: Vec, a: Vec, b: Vec): Option<Candidate>
  {
    if a == b then None
    else
      match ClosestPointOnSegment(p, a, b)
      case None => None
      case Some(cp) => Some(Candidate(Length(lib, Sub(p, cp)), cp, EdgeNormal(lib, a, b)))
  }

  /** The offers of the edges, in edge order. */
  function EdgeOffers(lib: MathLib, points: seq<Vec>, p: Vec): (r: seq<Option<Candidate>>)
    ensures |r| == |points| && forall i :: 0 <= i < |points| ==> r[i] == EdgeCandidate(lib, points, p, i)
  {
    seq(|points|, i requires 0 <= i < |points| => EdgeCandidate(lib, points, p, i))
  }

  /** One step of the scan: a new offer replaces the kept one only when it
      is strictly nearer. */
  function Keep(best: Option<Candidate>, offer: Option<Candidate>): Option<Candidate>
  {
    match offer
    case None => best
    case Some(c) => if best.None? || c.distance < best.value.distance then Some(c) else best
  }

  /** The offer kept after scanning the first n of a list of offers. */
  function Nearest(offers: seq<Option<Candidate>>, n: nat): Option<Candidate>
    requires n <= |offers|
  {
    if n == 0 then None else Keep(Nearest(offers, n - 1), offers[n - 1])
  }

  /** The offer kept after scanning the first n edges of the polygon. */
  function NearestUpTo(lib: MathLib, points: seq<Vec>, p: Vec, n: nat): Option<Candidate>
    requires n <= |points|
  {
    if n == 0 then None else Keep(NearestUpTo(lib, points, p, n - 1), EdgeCandidate(lib, points, p, n - 1))
  }

  /** Scanning the edges is scanning their list of offers. */
  lemma {:induction false} NearestUpToOffers(lib: MathLib, points: seq<Vec>, p: Vec, n: nat)
    requires n <= |points|
    ensures NearestUpTo(lib, points, p, n) == Nearest(EdgeOffers(lib, points, p), n)
  {
    if n > 0 {
      NearestUpToOffers(lib, points, p, n - 1);
    }
  }

  function ContactOf(best: Option<Candidate>): (r: PolygonContact)
    ensures r.normal.Some? <==> r.closestPoint.Some?
    ensures r.closestPoint.Some? <==> best.Some?
  {
    match best
    case None => PolygonContact(None, None)
    case Some(c) => PolygonContact(Some(c.normal), Some(c.point))
  }

  /** closestPointOnPolygon: scans the edges in order, keeping the nearest
      projection; `None` for the running minimum stands for the source's
      initial Infinity. */
  method ClosestPointOnPolygon(lib: MathLib, points: seq<Vec>, p: Vec) returns (contact: PolygonContact)
    ensures contact == ContactOf(NearestUpTo(lib, points, p, |points|))
  {
    var closestPoint: Option<Vec> := None;
    var normal: Option<Vec> := None;
    var minDistance: Option<real> := None;
    var i := 0;
    while i < |points|
      invariant 0 <= i <= |points|
      invariant Tracks(NearestUpTo(lib, points, p, i), minDistance, closestPoint, normal)
    {
      minDistance, closestPoint, normal := EdgeTurn(lib, points, p, i, minDistance, closestPoint, normal);
      i := i + 1;
    }
    contact := PolygonContact(normal, closestPoint);
    TracksContact(NearestUpTo(lib, points, p, i), minDistance, closestPoint, normal);
  }

  /** The running minimum, closest point and normal of closestPointOnPolygon
      stand for the offer kept so far. */
  predicate Tracks(best: Option<Candidate>, minDistance: Option<real>, closestPoint: Option<Vec>, normal: Option<Vec>)
  {
    match best
    case None => minDistance.None? && closestPoint.None? && normal.None?
    case Some(c) => minDistance == Some(c.distance) && closestPoint == Some(c.point) && normal == Some(c.normal)
  }

  /** The contact built from tracked variables is the contact of the offer
      they stand for. */
  lemma TracksContact(best: Option<Candidate>, minDistance: Option<real>, closestPoint: Option<Vec>, normal: Option<Vec>)
    requires Tracks(best, minDistance, closestPoint, normal)
    ensures PolygonContact(normal, closestPoint) == ContactOf(best)
  {
  }

  /** The body of closestPointOnPolygon's loop for edge i. */
  method EdgeTurn(lib: MathLib, points: seq<Vec>, p: Vec, i: nat, minDistance: Option<real>, closestPoint: Option<Vec>,
                  normal: Option<Vec>) returns (minDistance': Option<real>, closestPoint': Option<Vec>, normal': Option<Vec>)
    requires i < |points| && Tracks(NearestUpTo(lib, points, p, i), minDistance, closestPoint, normal)
    ensures Tracks(NearestUpTo(lib, points, p, i + 1), minDistance', closestPoint', normal')
  {
    minDistance', closestPoint', normal' := minDistance, closestPoint, normal;
    var a := points[i];
    var b := points[(i + 1) % |points|];
    // A degenerate edge is skipped: in the source its NaN distance loses
    // every comparison.
    if a != b {
      var cp := ClosestPointOnSegment(p, a, b);
      if cp.Some? {
        var distance := Length(lib, Sub(p, cp.value));
        if minDistance.None? || distance < minDistance.value {
          minDistance' := Some(distance);
          closestPoint' := cp;
          var t := Normalized(lib, Sub(a, b));
          normal' := Some(Vec(-t.y, t.x));
        }
      }
    }
  }

  /** What an edge offers: a point of the edge whose offset from p is
      perpendicular to the edge, at distance `distance` from p, with a normal
      perpendicular to the edge that has unit length when sqrt is sound. */
  lemma OfferMeaning(lib: MathLib, p: Vec, a: Vec, b: Vec)
    requires Offer(lib, p, a, b).Some?
    ensures var c := Offer(lib, p, a, b).value;
      a != b && OnSegment(c.point, a, b) && Dot(Sub(p, c.point), Sub(b, a)) == 0.0 &&
      c.distance == Length(lib, Sub(p, c.point)) &&
      Dot(c.normal, Sub(b, a)) == 0.0 &&
      (Sound(lib) ==> Length(lib, c.normal) == 1.0)
  {
    var cp := ClosestPointOnSegment(p, a, b).value;
    assert Offer(lib, p, a, b).value == Candidate(Length(lib, Sub(p, cp)), cp, EdgeNormal(lib, a, b));
    ClosestPointOnSegmentIsFoot(p, a, b);
    EdgeNormalPerpendicular(lib, a, b);
    if Sound(lib) {
      EdgeNormalUnit(lib, a, b);
    }
  }

  /** The normal the source attaches to the edge a→b. */
  function EdgeNormal(lib: MathLib, a: Vec, b: Vec): Vec
  {
    Perp(Normalized(lib, Sub(a, b)))
  }

  /** The edge normal is perpendicular to the edge. */
  lemma EdgeNormalPerpendicular(lib: MathLib, a: Vec, b: Vec)
    ensures Dot(EdgeNormal(lib, a, b), Sub(b, a)) == 0.0
  {
    var n := EdgeNormal(lib, a, b);
    PerpNormalizedOrthogonal(lib, Sub(a, b));
    NegatedDot(n, Sub(a, b));
  }

  lemma NegatedDot(n: Vec, d: Vec)
    ensures Dot(n, Vec(-d.x, -d.y)) == -Dot(n, d)
  {
  }

  /** For a proper edge and a sound sqrt the edge normal has unit length. */
  lemma EdgeNormalUnit(lib: MathLib, a: Vec, b: Vec)
    requires Sound(lib) && a != b
    ensures Length(lib, EdgeNormal(lib, a, b)) == 1.0
  {
    NormalizedTimesLength(lib, Sub(a, b));
    PerpLength(lib, Normalized(lib, Sub(a, b)));
  }

  /** No offer kept exactly when none of the first n offers is one. */
  lemma {:induction false} NearestNone(offers: seq<Option<Candidate>>, n: nat)
    requires n <= |offers|
    ensures Nearest(offers, n).None? <==> forall i :: 0 <= i < n ==> offers[i].None?
  {
    if n > 0 {
      NearestNone(offers, n - 1);
    }
  }

  /** The kept offer is offer k; it is no farther than any other offer, and
      strictly nearer than every offer before k, so the earliest of equally
      near offers wins. */
  lemma {:induction false} NearestIsFirstMinimum(offers: seq<Option<Candidate>>, n: nat) returns (k: nat)
    requires n <= |offers| && Nearest(offers, n).Some?
    ensures k < n && offers[k] == Nearest(offers, n)
    ensures forall j :: 0 <= j < n && offers[j].Some? ==> Nearest(offers, n).value.distance <= offers[j].value.distance
    ensures forall j :: 0 <= j < k && offers[j].Some? ==> Nearest(offers, n).value.distance < offers[j].value.distance
  {
    var best := Nearest(offers, n - 1);
    var last := offers[n - 1];
    if best.None? {
      NearestNone(offers, n - 1);
      k := n - 1;
    } else {
      var k0 := NearestIsFirstMinimum(offers, n - 1);
      if last.Some? && last.value.distance < best.value.distance {
        k := n - 1;
      } else {
        k := k0;
      }
    }
  }

  /** closestPointOnPolygon, summed up: both fields are null exactly when no
      edge offers a projection. Otherwise the point lies on some edge k, no
      earlier edge offers one as near, the point is no farther from p than
      any edge's projection, and the normal is a unit vector perpendicular
      to edge k. */
  lemma ClosestPointOnPolygonMeaning(lib: MathLib, points: seq<Vec>, p: Vec) returns (k: nat)
    requires Sound(lib)
    ensures var contact := ContactOf(NearestUpTo(lib, points, p, |points|));
      contact.closestPoint.None? <==> forall i :: 0 <= i < |points| ==> EdgeCandidate(lib, points, p, i).None?
    ensures var contact := ContactOf(NearestUpTo(lib, points, p, |points|));
      contact.closestPoint.Some? ==>
        k < |points| &&
        OnSegment(contact.closestPoint.value, points[k], points[(k + 1) % |points|]) &&
        Dot(contact.normal.value, Sub(points[(k + 1) % |points|], points[k])) == 0.0 &&
        Length(lib, contact.normal.value) == 1.0 &&
        (forall j :: 0 <= j < |points| && EdgeCandidate(lib, points, p, j).Some? ==>
          Length(lib, Sub(p, contact.closestPoint.value)) <= Length(lib, Sub(p, EdgeCandidate(lib, points, p, j).value.point))) &&
        (forall j :: 0 <= j < k && EdgeCandidate(lib, points, p, j).Some? ==>
          Length(lib, Sub(p, contact.closestPoint.value)) < Length(lib, Sub(p, EdgeCandidate(lib, points, p, j).value.point)))
  {
    var n := |points|;
    k := 0;
    var offers := EdgeOffers(lib, points, p);
    NearestUpToOffers(lib, points, p, n);
    NearestNone(offers, n);
    if NearestUpTo(lib, points, p, n).Some? {
      k := NearestIsFirstMinimum(offers, n);
      OfferMeaning(lib, p, points[k], points[(k + 1) % n]);
      forall j | 0 <= j < n && EdgeCandidate(lib, points, p, j).Some?
        ensures EdgeCandidate(lib, points, p, j).value.distance == Length(lib, Sub(p, EdgeCandidate(lib, points, p, j).value.point))
      {
        OfferMeaning(lib, p, points[j], points[(j + 1) % n]);
      }
    }
  }

  /** Where an edge offers a projection, the kept point is no farther from p
      than any point of that edge. */
  lemma ClosestPointOnPolygonBeatsEdge(lib: MathLib, points: seq<Vec>, p: Vec, j: nat, s: real)
    requires Sound(lib) && j < |points| && EdgeCandidate(lib, points, p, j).Some?
    requires 0.0 <= s <= 1.0
    ensures var contact := ContactOf(NearestUpTo(lib, points, p, |points|));
      contact.closestPoint.Some? &&
      Length(lib, Sub(p, contact.closestPoint.value)) <= Length(lib, Sub(p, PointOnLine(points[j], points[(j + 1) % |points|], s)))
  {
    var n := |points|;
    var a, b := points[j], points[(j + 1) % n];
    var k := ClosestPointOnPolygonMeaning(lib, points, p);
    OfferMeaning(lib, p, a, b);
    ClosestPointOnSegmentIsNearest(lib, p, a, b, s);
  }
}
