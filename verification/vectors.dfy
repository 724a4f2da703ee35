/** Two-dimensional vector arithmetic over exact reals (the value side of the
    repository's Vector2 class), and the host functions that the model keeps
    uninterpreted: square root, atan2, cosine, sine and rotation by degrees. */
module Vectors {

  datatype Vec = Vec(x: real, y: real)

  const Zero: Vec := Vec(0.0, 0.0)

  function Add(a: Vec, b: Vec): Vec { Vec(a.x + b.x, a.y + b.y) }

  function Sub(a: Vec, b: Vec): Vec { Vec(a.x - b.x, a.y - b.y) }

  function Scale(a: Vec, k: real): Vec { Vec(a.x * k, a.y * k) }

  function Dot(a: Vec, b: Vec): real { a.x * b.x + a.y * b.y }

  /** The z component of the 3D cross product of a and b. */
  function Cross(a: Vec, b: Vec): real { a.x * b.y - a.y * b.x }

  function Abs(r: real): real { if r < 0.0 then -r else r }

  /** Division as the model takes it: a zero divisor gives 0 where IEEE
      arithmetic would give an infinity or NaN. */
  function Quot(a: real, b: real): real { if b == 0.0 then 0.0 else a / b }

  /** Vector2.divided / divide / devide. */
  function DivVec(v: Vec, k: real): Vec { Vec(Quot(v.x, k), Quot(v.y, k)) }

  /** The host functions and constants the source takes from Math and
      Vector2. They are parameters of the model; only `sqrt` is constrained
      (see Sound). */
  datatype MathLib = MathLib(
    sqrt: real -> real,
    atan2: (real, real) -> real,
    cos: real -> real,
    sin: real -> real,
    pi: real,
    rotateDeg: (Vec, real) -> Vec)

  /** The one axiom the model needs: `sqrt` is the non-negative square root. */
  ghost predicate Sound(lib: MathLib)
  {
    forall r: real :: 0.0 <= r ==> 0.0 <= lib.sqrt(r) && lib.sqrt(r) * lib.sqrt(r) == r
  }

  /** Vector2.length. */
  function Length(lib: MathLib, v: Vec): real { lib.sqrt(Dot(v, v)) }

  /** Vector2.normalized / normalize; the zero vector maps to itself. */
  function Normalized(lib: MathLib, v: Vec): Vec { DivVec(v, Length(lib, v)) }

  /** Real multiplication as a named function: facts about products of a
      term with itself are stated through it so that they survive as facts
      about a single term. */
  function Mul(a: real, b: real): real { a * b }

  /** A product of two factors of the same strict sign is positive. */
  lemma MulPositive(a: real, b: real)
    requires (0.0 < a && 0.0 < b) || (a < 0.0 && b < 0.0)
    ensures 0.0 < Mul(a, b)
  {
    if a < 0.0 {
      assert 0.0 < (-a) * (-b);
    }
  }

  lemma MulNonZero(a: real, b: real)
    requires a != 0.0 && b != 0.0
    ensures Mul(a, b) != 0.0
  {
  }

  lemma SquareNonNegative(r: real)
    ensures 0.0 <= Mul(r, r)
  {
    if r != 0.0 {
      MulPositive(r, r);
    }
  }

  /** The squared norm is non-negative, and positive off the zero vector. */
  lemma DotSelf(v: Vec)
    ensures 0.0 <= Dot(v, v)
    ensures v != Zero ==> 0.0 < Dot(v, v)
  {
    assert Dot(v, v) == Mul(v.x, v.x) + Mul(v.y, v.y);
    SquareNonNegative(v.x);
    SquareNonNegative(v.y);
    if v.x != 0.0 {
      MulPositive(v.x, v.x);
    } else if v.y != 0.0 {
      MulPositive(v.y, v.y);
    }
  }

  /** Two non-negative reals with the same square are equal. */
  lemma SqrtUnique(a: real, b: real)
    requires 0.0 <= a && 0.0 <= b && Mul(a, a) == Mul(b, b)
    ensures a == b
  {
    assert (a - b) * (a + b) == 0.0;
    if a + b == 0.0 {
      assert a == 0.0 && b == 0.0;
    } else {
      assert a - b == 0.0;
    }
  }

  /** Length is the non-negative root of the squared norm, and vanishes only
      on the zero vector. */
  lemma LengthFacts(lib: MathLib, v: Vec)
    requires Sound(lib)
    ensures 0.0 <= Length(lib, v)
    ensures Mul(Length(lib, v), Length(lib, v)) == Dot(v, v)
    ensures Length(lib, v) == 0.0 <==> v == Zero
  {
    DotSelf(v);
    if v == Zero {
      SqrtUnique(Length(lib, v), 0.0);
    }
  }

  lemma MulNonNegative(a: real, b: real)
    requires 0.0 <= a && 0.0 <= b
    ensures 0.0 <= Mul(a, b)
  {
    if a != 0.0 && b != 0.0 {
      MulPositive(a, b);
    }
  }

  lemma DotScaled(v: Vec, k: real)
    ensures Dot(Scale(v, k), Scale(v, k)) == Mul(k, k) * Dot(v, v)
  {
  }

  lemma AbsSquare(k: real)
    ensures Mul(Abs(k), Abs(k)) == Mul(k, k)
  {
  }

  /** Scaling a vector by k scales its length by |k|. */
  lemma LengthScaled(lib: MathLib, v: Vec, k: real)
    requires Sound(lib)
    ensures Length(lib, Scale(v, k)) == Abs(k) * Length(lib, v)
  {
    LengthFacts(lib, v);
    LengthFacts(lib, Scale(v, k));
    DotScaled(v, k);
    AbsSquare(k);
    MulNonNegative(Abs(k), Length(lib, v));
    assert Mul(Abs(k) * Length(lib, v), Abs(k) * Length(lib, v))
        == Mul(Abs(k), Abs(k)) * Mul(Length(lib, v), Length(lib, v));
    SqrtUnique(Length(lib, Scale(v, k)), Mul(Abs(k), Length(lib, v)));
  }

  /** A non-zero vector is its normalized direction times its length, and
      that direction has length 1. */
  lemma NormalizedTimesLength(lib: MathLib, v: Vec)
    requires Sound(lib) && v != Zero
    ensures 0.0 < Length(lib, v)
    ensures Scale(Normalized(lib, v), Length(lib, v)) == v
    ensures Length(lib, Normalized(lib, v)) == 1.0
  {
    LengthFacts(lib, v);
    var l := Length(lib, v);
    var n := Normalized(lib, v);
    assert n == Scale(v, 1.0 / l);
    LengthScaled(lib, v, 1.0 / l);
  }

  /** A vector written as a unit direction times a non-negative factor has
      that factor as its length. */
  lemma LengthAlongUnit(lib: MathLib, n: Vec, k: real)
    requires Sound(lib) && Length(lib, n) == 1.0
    ensures Length(lib, Scale(n, k)) == Abs(k)
  {
    LengthScaled(lib, n, k);
  }

  /** The left-hand perpendicular (-y, x), used for polygon edge normals. */
  function Perp(v: Vec): Vec { Vec(-v.y, v.x) }

  /** The perpendicular of the normalized direction of d is orthogonal to d,
      whatever the length of d. */
  lemma PerpNormalizedOrthogonal(lib: MathLib, d: Vec)
    ensures Dot(Perp(Normalized(lib, d)), d) == 0.0
  {
    PerpQuotientOrthogonal(d, Length(lib, d));
  }

  lemma PerpQuotientOrthogonal(d: Vec, l: real)
    ensures Dot(Perp(DivVec(d, l)), d) == 0.0
  {
    QuotientsCancel(d.x, d.y, l);
    assert Perp(DivVec(d, l)) == Vec(-Quot(d.y, l), Quot(d.x, l));
  }

  lemma QuotientsCancel(x: real, y: real, l: real)
    ensures Dot(Vec(-Quot(y, l), Quot(x, l)), Vec(x, y)) == 0.0
  {
    if l != 0.0 {
      assert (y / l) * x == (x / l) * y;
    }
  }

  /** The perpendicular keeps the length. */
  lemma PerpLength(lib: MathLib, v: Vec)
    ensures Length(lib, Perp(v)) == Length(lib, v)
  {
    assert Dot(Perp(v), Perp(v)) == Dot(v, v);
  }

  /** Square roots are monotone. */
  lemma LengthMonotone(lib: MathLib, u: Vec, v: Vec)
    requires Sound(lib) && Dot(u, u) <= Dot(v, v)
    ensures Length(lib, u) <= Length(lib, v)
  {
    LengthFacts(lib, u);
    LengthFacts(lib, v);
    if Length(lib, v) < Length(lib, u) {
      MulStrictMonotone(Length(lib, v), Length(lib, u));
      assert false;
    }
  }

  lemma MulStrictMonotone(a: real, b: real)
    requires 0.0 <= a < b
    ensures Mul(a, a) < Mul(b, b)
  {
    assert b * b - a * a == (b - a) * (b + a);
    MulPositive(b - a, b + a);
  }
}
