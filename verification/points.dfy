/** The immutable 2-D point of src/core/geometry/Point.js.  Every operation
    returns a new point; a Dafny datatype value cannot be mutated, so the
    operands are untouched by construction. */
module Points {

  datatype Point = Point(x: real, y: real)

  function Clone(p: Point): (r: Point)
    ensures r.x == p.x && r.y == p.y
  {
    Point(p.x, p.y)
  }

  /** `p.add(q)`: subtracting either operand gives back the other. */
  function Add(p: Point, q: Point): (r: Point)
    ensures Subtract(r, q) == p && Subtract(r, p) == q
  {
    Point(p.x + q.x, p.y + q.y)
  }

  /** `p.subtract(q)`: zero exactly for equal points, and taking the
      difference away from p gives back q. */
  function Subtract(p: Point, q: Point): (r: Point)
    ensures r == Point(0.0, 0.0) <==> p == q
    ensures Point(p.x - r.x, p.y - r.y) == q
  {
    Point(p.x - q.x, p.y - q.y)
  }

  /** `p.scale(factor)`: stays on the line through the origin and p. */
  function Scale(p: Point, factor: real): (r: Point)
    ensures factor == 1.0 ==> r == p
    ensures factor == 0.0 ==> r == Point(0.0, 0.0)
    ensures r.x * p.y == r.y * p.x
  {
    Point(p.x * factor, p.y * factor)
  }

  /** `Math.hypot` is not modelled numerically; every length computation
      takes it as a parameter.  A faithful one is non-negative and squares to
      the sum of squares. */
  ghost predicate IsHypot(hypot: (real, real) -> real) {
    forall a: real, b: real :: 0.0 <= hypot(a, b) && hypot(a, b) * hypot(a, b) == a * a + b * b
  }

  /** `p.distanceTo(q)`. */
  function DistanceTo(p: Point, q: Point, hypot: (real, real) -> real): (d: real)
    ensures IsHypot(hypot) ==> 0.0 <= d && d * d == (p.x - q.x) * (p.x - q.x) + (p.y - q.y) * (p.y - q.y)
  {
    hypot(p.x - q.x, p.y - q.y)
  }

  lemma AddThenSubtract(p: Point, q: Point)
    ensures Subtract(Add(p, q), q) == p
  {
  }

  lemma AddCommutes(p: Point, q: Point)
    ensures Add(p, q) == Add(q, p)
  {
  }

  lemma ScaleLaws(p: Point, a: real, b: real)
    ensures Scale(p, 1.0) == p
    ensures Scale(Scale(p, a), b) == Scale(p, a * b)
  {
  }

  lemma MulPos(a: real, b: real)
    requires 0.0 < a && 0.0 < b
    ensures 0.0 < a * b
  {
  }

  lemma SquareStrict(u: real, v: real)
    requires 0.0 <= u < v
    ensures u * u < v * v
  {
    MulPos(v - u, v + u);
    assert (v - u) * (v + u) == v * v - u * u;
  }

  /** Non-negative square roots are unique. */
  lemma SquareRootUnique(u: real, v: real)
    requires 0.0 <= u && 0.0 <= v && u * u == v * v
    ensures u == v
  {
    if u < v {
      SquareStrict(u, v);
    } else if v < u {
      SquareStrict(v, u);
    }
  }

  /** The distance is symmetric, zero from a point to itself, and its square
      is dx^2 + dy^2. */
  lemma DistanceLaws(p: Point, q: Point, hypot: (real, real) -> real)
    requires IsHypot(hypot)
    ensures DistanceTo(p, q, hypot) == DistanceTo(q, p, hypot)
    ensures DistanceTo(p, p, hypot) == 0.0
    ensures DistanceTo(p, q, hypot) * DistanceTo(p, q, hypot)
         == (p.x - q.x) * (p.x - q.x) + (p.y - q.y) * (p.y - q.y)
  {
    var d1 := DistanceTo(p, q, hypot);
    var d2 := DistanceTo(q, p, hypot);
    assert d1 * d1 == (p.x - q.x) * (p.x - q.x) + (p.y - q.y) * (p.y - q.y);
    assert d2 * d2 == (q.x - p.x) * (q.x - p.x) + (q.y - p.y) * (q.y - p.y);
    SquareRootUnique(d1, d2);
    var d0 := DistanceTo(p, p, hypot);
    assert d0 * d0 == 0.0;
    SquareRootUnique(d0, 0.0);
  }

  /** (0,0) to (3,4) is 5 apart. */
  lemma DistanceThreeFour(hypot: (real, real) -> real)
    requires IsHypot(hypot)
    ensures DistanceTo(Point(0.0, 0.0), Point(3.0, 4.0), hypot) == 5.0
  {
    var d := DistanceTo(Point(0.0, 0.0), Point(3.0, 4.0), hypot);
    assert d * d == 25.0;
    SquareRootUnique(d, 5.0);
  }
}
