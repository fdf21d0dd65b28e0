/** The 2-D `Vector` value type shared by both eye animations (particles_eye.py
    and particle_eye.py declare it identically): every operator returns a new
    vector. Floats are modelled as exact reals. */
module Vectors {

  datatype Vector = Vector(x: real, y: real)

  const Zero := Vector(0.0, 0.0)

  /** `a + b`. */
  function Add(a: Vector, b: Vector): Vector
  {
    Vector(a.x + b.x, a.y + b.y)
  }

  /** `v * k` (and `k * v`) for a number k: both components scaled. */
  function Scale(v: Vector, k: real): Vector
  {
    Vector(k * v.x, k * v.y)
  }

  /** `a - b`, which the source writes as `a + (b * -1)`. */
  function Sub(a: Vector, b: Vector): (r: Vector)
    ensures r == Vector(a.x - b.x, a.y - b.y)
  {
    Add(a, Scale(b, -1.0))
  }

  /** `a * b` for two vectors: the component-wise product. */
  function Mul(a: Vector, b: Vector): Vector
  {
    Vector(a.x * b.x, a.y * b.y)
  }

  /** `v / k` for a number k. */
  function DivBy(v: Vector, k: real): Vector
    requires k != 0.0
  {
    Vector(v.x / k, v.y / k)
  }

  /** `a / b` for two vectors: the component-wise quotient. */
  function Div(a: Vector, b: Vector): Vector
    requires b.x != 0.0 && b.y != 0.0
  {
    Vector(a.x / b.x, a.y / b.y)
  }

  /** Division is undone by the matching multiplication. */
  lemma DivInverse(a: Vector, b: Vector, k: real)
    requires b.x != 0.0 && b.y != 0.0 && k != 0.0
    ensures Mul(Div(a, b), b) == a
    ensures Scale(DivBy(a, k), k) == a
  {
  }

  lemma ScaleZero(k: real)
    ensures Scale(Zero, k) == Zero
  {
  }

  lemma AddZero(v: Vector)
    ensures Add(v, Zero) == v && Add(Zero, v) == v
  {
  }

  lemma ScaleScale(v: Vector, j: real, k: real)
    ensures Scale(Scale(v, j), k) == Scale(v, Times(k, j))
  {
  }

  /** Subtraction undoes addition, and the other way round. */
  lemma AddSubInverse(a: Vector, b: Vector)
    ensures Sub(Add(a, b), b) == a
    ensures Add(Sub(a, b), b) == a
  {
  }

  // ---------------------------------------------------------------------
  // Products, squares and distances. A product is kept as one term
  // (`Times`) wherever a proof needs its sign, so that the sign facts
  // below are stated once, on whole terms, and reused.

  function Times(a: real, b: real): real
  {
    a * b
  }

  /** `u**2`. */
  function Square(u: real): real
  {
    Times(u, u)
  }

  /** The sign of a product follows from the signs of its factors. */
  lemma TimesSign(a: real, b: real)
    ensures a > 0.0 && b > 0.0 ==> Times(a, b) > 0.0
    ensures a < 0.0 && b > 0.0 ==> Times(a, b) < 0.0
    ensures a >= 0.0 && b >= 0.0 ==> Times(a, b) >= 0.0
  {
  }

  lemma TimesDistributes(k: real, a: real, b: real)
    ensures Times(k, a + b) == Times(k, a) + Times(k, b)
  {
  }

  lemma TimesAssociates(a: real, b: real, c: real)
    ensures Times(a, Times(b, c)) == Times(Times(a, b), c)
  {
  }

  lemma TimesNegated(a: real, b: real)
    ensures Times(-a, -b) == Times(a, b)
  {
  }

  /** A square is non-negative, and positive unless its root is zero. */
  lemma SquareSign(u: real)
    ensures Square(u) >= 0.0
    ensures u != 0.0 ==> Square(u) > 0.0
  {
    TimesSign(u, u);
    TimesSign(-u, -u);
    TimesNegated(u, u);
  }

  /** Squares are ordered like their non-negative roots. */
  lemma SquareMonotone(a: real, b: real)
    requires 0.0 <= a <= b
    ensures Square(a) <= Square(b)
  {
    assert Times(b - a, b + a) == Square(b) - Square(a);
    TimesSign(b - a, b + a);
  }

  /** A non-negative root is unique. */
  lemma RootUnique(d: real, e: real)
    requires d >= 0.0 && e >= 0.0 && Square(d) == Square(e)
    ensures d == e
  {
    var lo, hi := if d < e then d else e, if d < e then e else d;
    assert Square(lo) == Square(hi);
    assert Times(hi - lo, hi + lo) == Square(hi) - Square(lo);
    TimesSign(hi - lo, hi + lo);
  }

  /** A sum of two squares vanishes only when both roots do. */
  lemma SquareSumZero(u: real, w: real)
    ensures Square(u) + Square(w) >= 0.0
    ensures Square(u) + Square(w) == 0.0 <==> u == 0.0 && w == 0.0
  {
    SquareSign(u);
    SquareSign(w);
  }

  function Dot(a: Vector, b: Vector): real
  {
    a.x * b.x + a.y * b.y
  }

  /** The squared length of a vector. */
  function NormSq(v: Vector): (r: real)
    ensures r >= 0.0
    ensures r == 0.0 <==> v == Zero
  {
    SquareSumZero(v.x, v.y);
    Square(v.x) + Square(v.y)
  }

  /** Scaling by c multiplies the squared length by c*c, and the projection
      on the unscaled vector by c. */
  lemma ScaledNorm(v: Vector, c: real)
    ensures NormSq(Scale(v, c)) == Times(Square(c), NormSq(v))
    ensures Dot(Scale(v, c), v) == Times(c, NormSq(v))
  {
  }

  /** The radicand of `distance_to`: `(a.x - b.x)**2 + (a.y - b.y)**2`. */
  function DistanceSq(a: Vector, b: Vector): (r: real)
    ensures r == Square(a.x - b.x) + Square(a.y - b.y)
    ensures r >= 0.0
    ensures r == 0.0 <==> a == b
  {
    var v := Sub(a, b);
    assert v == Zero <==> a == b;
    NormSq(v)
  }

  /** The square root the host supplies (`** 0.5`, `math.sqrt`), taken as exact. */
  ghost predicate IsSqrt(sqrt: real -> real)
  {
    && (forall v :: 0.0 <= v ==> 0.0 <= sqrt(v))
    && (forall v {:trigger Square(sqrt(v))} :: 0.0 <= v ==> Square(sqrt(v)) == v)
  }

  /** `a.distance_to(b)`. */
  function Distance(a: Vector, b: Vector, sqrt: real -> real): (d: real)
    requires IsSqrt(sqrt)
    ensures d >= 0.0
    ensures d == 0.0 <==> a == b
  {
    SquareSign(sqrt(DistanceSq(a, b)));
    sqrt(DistanceSq(a, b))
  }

  /** The distance squared is the radicand. */
  lemma DistanceSquared(a: Vector, b: Vector, sqrt: real -> real)
    requires IsSqrt(sqrt)
    ensures Square(Distance(a, b, sqrt)) == DistanceSq(a, b)
  {
  }

  /** Distance does not depend on the order of its arguments. */
  lemma DistanceSymmetric(a: Vector, b: Vector, sqrt: real -> real)
    requires IsSqrt(sqrt)
    ensures Distance(a, b, sqrt) == Distance(b, a, sqrt)
  {
    TimesNegated(a.x - b.x, a.x - b.x);
    TimesNegated(a.y - b.y, a.y - b.y);
  }
}
