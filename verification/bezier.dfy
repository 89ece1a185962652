/** Cubic Bezier evaluation and uniform sampling, src/core/geometry/Bezier.js. */
module Bezier {
  import opened Points

  /** The Bernstein weights (1-t)^3, 3(1-t)^2 t, 3(1-t) t^2, t^3 in the
      order the source computes them. */
  function WeightA(t: real): real { (1.0 - t) * (1.0 - t) * (1.0 - t) }
  function WeightB(t: real): real { 3.0 * ((1.0 - t) * (1.0 - t)) * t }
  function WeightC(t: real): real { 3.0 * (1.0 - t) * (t * t) }
  function WeightD(t: real): real { t * (t * t) }

  function Blend(t: real, v0: real, v1: real, v2: real, v3: real): real {
    WeightA(t) * v0 + WeightB(t) * v1 + WeightC(t) * v2 + WeightD(t) * v3
  }

  /** `cubicAt(p0, p1, p2, p3, t)`. */
  function CubicAt(p0: Point, p1: Point, p2: Point, p3: Point, t: real): (r: Point)
    ensures t == 0.0 ==> r == p0
    ensures t == 1.0 ==> r == p3
  {
    Point(Blend(t, p0.x, p1.x, p2.x, p3.x), Blend(t, p0.y, p1.y, p2.y, p3.y))
  }

  /** The weights form a partition of unity, non-negative on [0,1]. */
  lemma WeightsPartition(t: real)
    ensures WeightA(t) + WeightB(t) + WeightC(t) + WeightD(t) == 1.0
    ensures 0.0 <= t <= 1.0 ==>
      0.0 <= WeightA(t) && 0.0 <= WeightB(t) && 0.0 <= WeightC(t) && 0.0 <= WeightD(t)
  {
    var m := 1.0 - t;
    assert m + t == 1.0;
    calc {
      WeightA(t) + WeightB(t) + WeightC(t) + WeightD(t);
      m * m * m + 3.0 * (m * m) * t + 3.0 * m * (t * t) + t * (t * t);
      (m + t) * (m + t) * (m + t);
      1.0;
    }
    if 0.0 <= t <= 1.0 {
      NonnegProduct(m, m);
      NonnegProduct(m * m, m);
      NonnegProduct(m * m, t);
      NonnegProduct(t, t);
      NonnegProduct(m, t * t);
      NonnegProduct(t, t * t);
    }
  }

  lemma NonnegProduct(a: real, b: real)
    requires 0.0 <= a && 0.0 <= b
    ensures 0.0 <= a * b
  {
  }

  lemma ScaleBelow(w: real, v: real, hi: real)
    requires 0.0 <= w && v <= hi
    ensures w * v <= w * hi
  {
    NonnegProduct(w, hi - v);
    assert w * (hi - v) == w * hi - w * v;
  }

  lemma ConvexBelow(a: real, b: real, c: real, d: real, v0: real, v1: real, v2: real, v3: real, hi: real)
    requires 0.0 <= a && 0.0 <= b && 0.0 <= c && 0.0 <= d && a + b + c + d == 1.0
    requires v0 <= hi && v1 <= hi && v2 <= hi && v3 <= hi
    ensures a * v0 + b * v1 + c * v2 + d * v3 <= hi
  {
    ScaleBelow(a, v0, hi); ScaleBelow(b, v1, hi); ScaleBelow(c, v2, hi); ScaleBelow(d, v3, hi);
    var x0, x1, x2, x3 := a * v0, b * v1, c * v2, d * v3;
    var h0, h1, h2, h3 := a * hi, b * hi, c * hi, d * hi;
    assert x0 <= h0 && x1 <= h1 && x2 <= h2 && x3 <= h3;
    assert x0 + x1 + x2 + x3 <= h0 + h1 + h2 + h3;
    assert h0 + h1 + h2 + h3 == (a + b + c + d) * hi;
  }

  /** A convex combination stays between the smallest and the largest value. */
  lemma ConvexBetween(a: real, b: real, c: real, d: real, v0: real, v1: real, v2: real, v3: real, lo: real, hi: real)
    requires 0.0 <= a && 0.0 <= b && 0.0 <= c && 0.0 <= d && a + b + c + d == 1.0
    requires lo <= v0 <= hi && lo <= v1 <= hi && lo <= v2 <= hi && lo <= v3 <= hi
    ensures lo <= a * v0 + b * v1 + c * v2 + d * v3 <= hi
  {
    ConvexBelow(a, b, c, d, v0, v1, v2, v3, hi);
    ConvexBelow(a, b, c, d, -v0, -v1, -v2, -v3, -lo);
    assert a * (-v0) + b * (-v1) + c * (-v2) + d * (-v3) == -(a * v0 + b * v1 + c * v2 + d * v3);
  }

  lemma BlendBetween(t: real, v0: real, v1: real, v2: real, v3: real, lo: real, hi: real)
    requires 0.0 <= t <= 1.0
    requires lo <= v0 <= hi && lo <= v1 <= hi && lo <= v2 <= hi && lo <= v3 <= hi
    ensures lo <= Blend(t, v0, v1, v2, v3) <= hi
  {
    WeightsPartition(t);
    ConvexBetween(WeightA(t), WeightB(t), WeightC(t), WeightD(t), v0, v1, v2, v3, lo, hi);
  }

  function Min4(a: real, b: real, c: real, d: real): real {
    var ab := if a <= b then a else b;
    var cd := if c <= d then c else d;
    if ab <= cd then ab else cd
  }

  function Max4(a: real, b: real, c: real, d: real): real {
    var ab := if a >= b then a else b;
    var cd := if c >= d then c else d;
    if ab >= cd then ab else cd
  }

  /** The control points' axis-aligned bounding box contains `p`. */
  predicate InControlBox(p: Point, p0: Point, p1: Point, p2: Point, p3: Point) {
    && Min4(p0.x, p1.x, p2.x, p3.x) <= p.x <= Max4(p0.x, p1.x, p2.x, p3.x)
    && Min4(p0.y, p1.y, p2.y, p3.y) <= p.y <= Max4(p0.y, p1.y, p2.y, p3.y)
  }

  /** For t in [0,1] the curve point lies in the control points' bounding box;
      when all four control points coincide it is that point. */
  lemma CubicInControlBox(p0: Point, p1: Point, p2: Point, p3: Point, t: real)
    requires 0.0 <= t <= 1.0
    ensures InControlBox(CubicAt(p0, p1, p2, p3, t), p0, p1, p2, p3)
    ensures p0 == p1 == p2 == p3 ==> CubicAt(p0, p1, p2, p3, t) == p0
  {
    BlendBetween(t, p0.x, p1.x, p2.x, p3.x, Min4(p0.x, p1.x, p2.x, p3.x), Max4(p0.x, p1.x, p2.x, p3.x));
    BlendBetween(t, p0.y, p1.y, p2.y, p3.y, Min4(p0.y, p1.y, p2.y, p3.y), Max4(p0.y, p1.y, p2.y, p3.y));
  }

  /** Parameter of sample `i` out of `n` subdivisions. */
  function SampleT(i: nat, n: nat): real
    requires n >= 1
  {
    (i as real) / (n as real)
  }

  /** `sampleCubic(p0, p1, p2, p3, n)`: n+1 points at t = 0, 1/n, ..., 1. */
  function SampleCubic(p0: Point, p1: Point, p2: Point, p3: Point, n: nat): (r: seq<Point>)
    requires n >= 1
    ensures |r| == n + 1
    ensures r[0] == p0 && r[n] == p3
  {
    assert SampleT(0, n) == 0.0;
    DivSelf(n as real);
    assert SampleT(n, n) == 1.0;
    seq(n + 1, i requires 0 <= i <= n => CubicAt(p0, p1, p2, p3, SampleT(i, n)))
  }

  /** Sample parameters lie in [0,1] and increase strictly with the index. */
  lemma SampleOrder(i: nat, j: nat, n: nat)
    requires n >= 1 && i < j <= n
    ensures 0.0 <= SampleT(i, n) < SampleT(j, n) <= 1.0
  {
  }

  /** Every sample lies in the control points' box; a degenerate curve whose
      control points coincide samples to that point everywhere. */
  lemma SamplesInControlBox(p0: Point, p1: Point, p2: Point, p3: Point, n: nat)
    requires n >= 1
    ensures forall i :: 0 <= i <= n ==> InControlBox(SampleCubic(p0, p1, p2, p3, n)[i], p0, p1, p2, p3)
    ensures p0 == p1 == p2 == p3 ==> forall i :: 0 <= i <= n ==> SampleCubic(p0, p1, p2, p3, n)[i] == p0
  {
    var s := SampleCubic(p0, p1, p2, p3, n);
    forall i | 0 <= i <= n
      ensures InControlBox(s[i], p0, p1, p2, p3)
      ensures p0 == p1 == p2 == p3 ==> s[i] == p0
    {
      SampleTInUnit(i, n);
      assert s[i] == CubicAt(p0, p1, p2, p3, SampleT(i, n));
      CubicInControlBox(p0, p1, p2, p3, SampleT(i, n));
    }
  }

  lemma DivSelf(x: real)
    requires x != 0.0
    ensures x / x == 1.0
  {
  }

  lemma SampleTInUnit(i: nat, n: nat)
    requires 1 <= n && i <= n
    ensures 0.0 <= SampleT(i, n) <= 1.0
  {
  }
}
