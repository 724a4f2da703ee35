/** Polygon: a fixed list of local vertices placed in the world by a
    rotation (in degrees) and a translation, with a cache of the placed
    vertices that every change of placement rebuilds. */
module Polygons {
  import opened Vectors

  /** Vertex i placed in the world: rotated by `rotation` degrees, then
      moved by `position`. */
  function Placed(lib: MathLib, point: Vec, rotation: real, position: Vec): Vec
  {
    Add(lib.rotateDeg(point, rotation), position)
  }

  class Polygon {
    /** The host rotation routine (Vector2.rotateDeg) the cache is built with. */
    const lib: MathLib
    var position: Vec
    var rotation: real
    /** The local vertices; the array is shared, never written. */
    const points: seq<Vec>
    var transformedPoints: seq<Vec>

    /** The cache matches the placement: one placed vertex per local vertex,
        in the same order. */
    ghost predicate Valid()
      reads this
    {
      |transformedPoints| == |points| &&
      forall i :: 0 <= i < |points| ==> transformedPoints[i] == Placed(lib, points[i], rotation, position)
    }

    constructor (lib: MathLib, position: Vec, rotation: real, points: seq<Vec>)
      ensures this.lib == lib && this.position == position && this.rotation == rotation && this.points == points
      ensures Valid()
    {
      this.lib := lib;
      this.position := position;
      this.rotation := rotation;
      this.points := points;
      transformedPoints := [];
      new;
      transformedPoints := TransfomPoints();
    }

    /** rotate: sets the rotation and rebuilds the cache; the position and
        the local vertices stay. Rotating to the current rotation changes
        nothing. */
    method Rotate(rotation: real)
      modifies this
      ensures this.rotation == rotation && position == old(position) && Valid()
      ensures old(Valid()) && rotation == old(this.rotation) ==> transformedPoints == old(transformedPoints)
    {
      this.rotation := rotation;
      transformedPoints := TransfomPoints();
    }

    /** translation: sets the position and rebuilds the cache; the rotation
        and the local vertices stay. */
    method Translation(position: Vec)
      modifies this
      ensures this.position == position && rotation == old(rotation) && Valid()
      ensures old(Valid()) && position == old(this.position) ==> transformedPoints == old(transformedPoints)
    {
      this.position := position;
      transformedPoints := TransfomPoints();
    }

    /** transfomPoints: places every local vertex, in order. */
    method TransfomPoints() returns (transformed: seq<Vec>)
      ensures |transformed| == |points|
      ensures forall i :: 0 <= i < |points| ==> transformed[i] == Placed(lib, points[i], rotation, position)
    {
      transformed := [];
      for k := 0 to |points|
        invariant |transformed| == k
        invariant forall i :: 0 <= i < k ==> transformed[i] == Placed(lib, points[i], rotation, position)
      {
        var transformedPoint := lib.rotateDeg(points[k], rotation);
        transformedPoint := Add(transformedPoint, position);
        transformed := transformed + [transformedPoint];
      }
    }
  }
}
