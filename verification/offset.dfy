/** The seam-allowance offset engine of src/core/geometry/Offset.js: every
    edge of the flattened path is shifted along its normal, neighbouring
    shifted edges are joined at their intersection (a miter) or, when that
    lies too far from the vertex, by both edge endpoints (a bevel), and the
    resulting polyline is rebuilt as a path. */
module Offset {
  import opened Js
  import opened Points
  import opened Paths

  const Epsilon: real := 0.000000001

  function Abs(r: real): real { if r < 0.0 then -r else r }

  /** The 2-D cross product. */
  function Cross(p: Point, q: Point): real { p.x * q.y - q.x * p.y }

  /** `q` lies on the infinite line through `a` and `b`. */
  predicate OnLine(q: Point, a: Point, b: Point) {
    (b.x - a.x) * (q.y - a.y) - (b.y - a.y) * (q.x - a.x) == 0.0
  }

  /** `normal(p1, p2)`: the left normal of the edge, divided by its length,
      or by 1 when the length is 0. */
  function Normal(p1: Point, p2: Point, hypot: (real, real) -> real): (r: Point)
    ensures r.x * (p2.x - p1.x) + r.y * (p2.y - p1.y) == 0.0
    ensures p1 == p2 ==> r == Point(0.0, 0.0)
    ensures var h := hypot(p2.x - p1.x, p2.y - p1.y);
      h != 0.0 ==> r.x * h == -(p2.y - p1.y) && r.y * h == p2.x - p1.x
  {
    var dx := p2.x - p1.x;
    var dy := p2.y - p1.y;
    var h := hypot(dx, dy);
    var len := if h == 0.0 then 1.0 else h;
    Point(-dy / len, dx / len)
  }

  lemma SquareNonneg(a: real)
    ensures a * a >= 0.0
  {
    if a < 0.0 { MulPos(-a, -a); }
  }

  lemma SquarePositive(a: real)
    requires a != 0.0
    ensures a * a > 0.0
  {
    if a > 0.0 { MulPos(a, a); } else { MulPos(-a, -a); }
  }

  lemma ZeroFactor(e: real, d: real)
    requires e * d == 0.0 && d != 0.0
    ensures e == 0.0
  {
  }

  /** The numerators of `lineIntersection`'s two coordinates. */
  function NumeratorX(p1: Point, p2: Point, p3: Point, p4: Point): real {
    (p1.x * p2.y - p1.y * p2.x) * (p3.x - p4.x) - (p1.x - p2.x) * (p3.x * p4.y - p3.y * p4.x)
  }

  function NumeratorY(p1: Point, p2: Point, p3: Point, p4: Point): real {
    (p1.x * p2.y - p1.y * p2.x) * (p3.y - p4.y) - (p1.y - p2.y) * (p3.x * p4.y - p3.y * p4.x)
  }

  lemma IntersectionIdentities(p1: Point, p2: Point, p3: Point, p4: Point)
    ensures var d := Denominator(p1, p2, p3, p4);
            var nx := NumeratorX(p1, p2, p3, p4);
            var ny := NumeratorY(p1, p2, p3, p4);
            && (p2.x - p1.x) * (ny - p1.y * d) - (p2.y - p1.y) * (nx - p1.x * d) == 0.0
            && (p4.x - p3.x) * (ny - p3.y * d) - (p4.y - p3.y) * (nx - p3.x * d) == 0.0
  {
  }

  /** A point whose coordinates times `d` are `nx`, `ny` lies on a line when
      the scaled line equation vanishes. */
  lemma OnLineFromScaled(q: Point, a: Point, b: Point, nx: real, ny: real, d: real)
    requires d != 0.0 && q.x == nx / d && q.y == ny / d
    requires (b.x - a.x) * (ny - a.y * d) - (b.y - a.y) * (nx - a.x * d) == 0.0
    ensures OnLine(q, a, b)
  {
    assert q.x * d == nx && q.y * d == ny;
    var e := (b.x - a.x) * (q.y - a.y) - (b.y - a.y) * (q.x - a.x);
    assert e * d == (b.x - a.x) * (q.y * d - a.y * d) - (b.y - a.y) * (q.x * d - a.x * d);
    ZeroFactor(e, d);
  }

  /** The denominator of `lineIntersection`. */
  function Denominator(p1: Point, p2: Point, p3: Point, p4: Point): real {
    (p1.x - p2.x) * (p3.y - p4.y) - (p1.y - p2.y) * (p3.x - p4.x)
  }

  /** `lineIntersection(p1, p2, p3, p4)`: `None` for (nearly) parallel
      lines, otherwise a point on both infinite lines. */
  function LineIntersection(p1: Point, p2: Point, p3: Point, p4: Point): (r: Option<Point>)
    ensures r.None? <==> Abs(Denominator(p1, p2, p3, p4)) < Epsilon
    ensures r.Some? ==> OnLine(r.value, p1, p2) && OnLine(r.value, p3, p4)
  {
    var d := Denominator(p1, p2, p3, p4);
    if Abs(d) < Epsilon then None
    else
      var nx := NumeratorX(p1, p2, p3, p4);
      var ny := NumeratorY(p1, p2, p3, p4);
      var q := Point(nx / d, ny / d);
      IntersectionIdentities(p1, p2, p3, p4);
      OnLineFromScaled(q, p1, p2, nx, ny, d);
      OnLineFromScaled(q, p3, p4, nx, ny, d);
      Some(q)
  }

  /** `pointsEqual`: both coordinates within 1e-9. */
  function PointsEqual(p: Point, q: Point): (b: bool)
    ensures p == q ==> b
    ensures b <==> Abs(q.x - p.x) < Epsilon && Abs(q.y - p.y) < Epsilon
  {
    Abs(p.x - q.x) < Epsilon && Abs(p.y - q.y) < Epsilon
  }

  /** No two consecutive points are equal within 1e-9. */
  predicate NoAdjacentDup(s: seq<Point>) {
    forall i :: 0 < i < |s| ==> DiffersFromPrevious(s, i)
  }

  predicate DiffersFromPrevious(s: seq<Point>, i: nat)
    requires 0 < i < |s|
  {
    !PointsEqual(s[i - 1], s[i])
  }

  datatype Edge = Edge(start: Point, end: Point)

  /** One entry of `segments`: the edge `a`→`b` moved by `offset` along its
      normal. */
  function ShiftedEdge(a: Point, b: Point, offset: real, hypot: (real, real) -> real): (e: Edge)
    ensures e.end.x - e.start.x == b.x - a.x && e.end.y - e.start.y == b.y - a.y
    ensures e.start.x - a.x == e.end.x - b.x && e.start.y - a.y == e.end.y - b.y
  {
    var n := Normal(a, b, hypot);
    Edge(Point(a.x + n.x * offset, a.y + n.y * offset), Point(b.x + n.x * offset, b.y + n.y * offset))
  }

  /** A shifted edge is the original edge moved perpendicular to itself:
      the displacement is orthogonal to the edge, and `offset` times the
      rotated edge once scaled by the edge's length. */
  lemma ShiftedEdgeDisplacement(a: Point, b: Point, offset: real, hypot: (real, real) -> real)
    ensures var e := ShiftedEdge(a, b, offset, hypot);
      var vx, vy := e.start.x - a.x, e.start.y - a.y;
      && vx * (b.x - a.x) + vy * (b.y - a.y) == 0.0
      && (hypot(b.x - a.x, b.y - a.y) != 0.0 ==>
            && vx * hypot(b.x - a.x, b.y - a.y) == -(b.y - a.y) * offset
            && vy * hypot(b.x - a.x, b.y - a.y) == (b.x - a.x) * offset)
  {
    var n := Normal(a, b, hypot);
    var vx, vy := n.x * offset, n.y * offset;
    assert vx * (b.x - a.x) + vy * (b.y - a.y) == (n.x * (b.x - a.x) + n.y * (b.y - a.y)) * offset;
    var h := hypot(b.x - a.x, b.y - a.y);
    assert vx * h == (n.x * h) * offset;
    assert vy * h == (n.y * h) * offset;
  }

  /** Number of edges: every consecutive pair, plus the closing pair when the
      polyline is closed. */
  function EdgeCount(total: nat, closed: bool): nat {
    if closed then total else if total == 0 then 0 else total - 1
  }

  /** The `segments` array of `offsetPolyline`. */
  function ShiftedEdges(points: seq<Point>, offset: real, closed: bool, hypot: (real, real) -> real): (es: seq<Edge>)
    requires |points| >= 2
    ensures |es| == EdgeCount(|points|, closed) && |es| >= 1
    ensures forall i :: 0 <= i < |es| ==> es[i] == ShiftedEdge(points[i], points[(i + 1) % |points|], offset, hypot)
  {
    var total := |points|;
    seq(EdgeCount(total, closed), i requires 0 <= i < EdgeCount(total, closed) =>
      ShiftedEdge(points[i], points[(i + 1) % total], offset, hypot))
  }

  /** The join at vertex `i` between the shifted edge before it and the one
      after it: the miter point when the edges' lines meet within
      `miterLimit` of the vertex, otherwise the previous edge's end and the
      next edge's start. */
  function Corner(points: seq<Point>, edges: seq<Edge>, i: nat, miterLimit: real, hypot: (real, real) -> real): (r: seq<Point>)
    requires i < |points| && |edges| >= 1
    ensures 1 <= |r| <= 2
    ensures |r| == 1 ==> var q := r[0];
      var prev := edges[(i - 1 + |edges|) % |edges|];
      var next := edges[i % |edges|];
      && OnLine(q, prev.start, prev.end) && OnLine(q, next.start, next.end)
      && hypot(q.x - points[i].x, q.y - points[i].y) <= miterLimit
    ensures |r| == 2 ==> r == [edges[(i - 1 + |edges|) % |edges|].end, edges[i % |edges|].start]
    ensures var prev := edges[(i - 1 + |edges|) % |edges|];
      var next := edges[i % |edges|];
      var x := LineIntersection(prev.start, prev.end, next.start, next.end);
      && (|r| == 1 <==> x.Some? && hypot(x.value.x - points[i].x, x.value.y - points[i].y) <= miterLimit)
      && (|r| == 1 ==> r[0] == x.value)
  {
    var prev := edges[(i - 1 + |edges|) % |edges|];
    var next := edges[i % |edges|];
    match LineIntersection(prev.start, prev.end, next.start, next.end)
    case Some(q) =>
      if hypot(q.x - points[i].x, q.y - points[i].y) <= miterLimit then [q] else [prev.end, next.start]
    case None => [prev.end, next.start]
  }

  /** The joins at vertices `lo`..`hi-1`, in vertex order. */
  function Corners(points: seq<Point>, edges: seq<Edge>, lo: nat, hi: nat, miterLimit: real, hypot: (real, real) -> real): (r: seq<Point>)
    requires lo <= hi <= |points| && |edges| >= 1
    ensures hi - lo <= |r| <= 2 * (hi - lo)
    decreases hi - lo
  {
    if lo == hi then [] else Corners(points, edges, lo, hi - 1, miterLimit, hypot) + Corner(points, edges, hi - 1, miterLimit, hypot)
  }

  /** Every point handed to `pushPoint`, in order: for an open polyline the
      first edge's start, the joins at the interior vertices and the last
      edge's end; for a closed one the joins at every vertex. */
  function Candidates(points: seq<Point>, offset: real, closed: bool, miterLimit: real, hypot: (real, real) -> real): (r: seq<Point>)
    requires |points| >= 2
    ensures |points| <= |r| <= 2 * |points|
    ensures !closed ==> var es := ShiftedEdges(points, offset, closed, hypot);
      r[0] == es[0].start && r[|r| - 1] == es[|es| - 1].end
  {
    var edges := ShiftedEdges(points, offset, closed, hypot);
    if closed then Corners(points, edges, 0, |points|, miterLimit, hypot)
    else [edges[0].start] + Corners(points, edges, 1, |points| - 1, miterLimit, hypot) + [edges[|edges| - 1].end]
  }

  /** `pushPoint`: appends unless the point equals the last one within
      1e-9. */
  function Push(out: seq<Point>, p: Point): seq<Point> {
    if |out| == 0 || !PointsEqual(out[|out| - 1], p) then out + [p] else out
  }

  /** Pushing every point of `ps` in order.  The result keeps `out` as a
      prefix, adds at most |ps| points, all drawn from `ps`, never makes two
      neighbours equal, and ends within 1e-9 of the last point pushed. */
  function PushAll(out: seq<Point>, ps: seq<Point>): (r: seq<Point>)
    ensures |out| <= |r| <= |out| + |ps| && r[..|out|] == out
    ensures NoAdjacentDup(out) ==> NoAdjacentDup(r)
    ensures forall i :: |out| <= i < |r| ==> r[i] in ps
    ensures |ps| > 0 ==> |r| > 0 && PointsEqual(r[|r| - 1], ps[|ps| - 1])
    ensures |out| == 0 && |ps| > 0 ==> r[0] == ps[0]
    decreases |ps|
  {
    if |ps| == 0 then out
    else
      var init := ps[..|ps| - 1];
      var p := ps[|ps| - 1];
      var mid := PushAll(out, init);
      assert forall q :: q in init ==> q in ps;
      assert |init| == 0 ==> mid == out;
      var r := Push(mid, p);
      assert NoAdjacentDup(mid) ==> forall i :: 0 < i < |mid| ==> DiffersFromPrevious(r, i) == DiffersFromPrevious(mid, i);
      r
  }

  /** The final `pop` of a closed polyline: the last point goes when it
      equals the first within 1e-9 and more than one point is left. */
  function DropClosingDuplicate(out: seq<Point>, closed: bool): (r: seq<Point>)
    ensures !closed ==> r == out
    ensures |r| <= |out| && r == out[..|r|]
    ensures |out| >= 1 ==> |r| >= 1
    ensures |r| < |out| <==> closed && |out| > 1 && PointsEqual(out[0], out[|out| - 1])
    ensures NoAdjacentDup(out) ==> NoAdjacentDup(r)
  {
    if closed && |out| > 1 && PointsEqual(out[0], out[|out| - 1]) then
      var r := out[..|out| - 1];
      assert forall i :: 0 < i < |r| ==> DiffersFromPrevious(r, i) == DiffersFromPrevious(out, i);
      r
    else out
  }

  /** The pushes and the final pop over a list of candidate points. */
  function Deduplicate(cands: seq<Point>, closed: bool): (r: seq<Point>)
    ensures |cands| >= 1 ==> 1 <= |r|
    ensures |r| <= |cands|
    ensures NoAdjacentDup(r)
    ensures forall i :: 0 <= i < |r| ==> r[i] in cands
    ensures !closed && |cands| >= 1 ==> r[0] == cands[0] && PointsEqual(r[|r| - 1], cands[|cands| - 1])
  {
    var out := PushAll([], cands);
    var r := DropClosingDuplicate(out, closed);
    assert forall i :: 0 <= i < |r| ==> r[i] == out[i];
    r
  }

  /** `offsetPolyline(points, offset, { closed, miterLimit })`. */
  function OffsetPolyline(points: seq<Point>, offset: real, closed: bool, miterLimit: real, hypot: (real, real) -> real): (r: seq<Point>)
    ensures |points| < 2 ==> r == []
    ensures |points| >= 2 ==> 1 <= |r| <= 2 * |points|
    ensures NoAdjacentDup(r)
    ensures |points| >= 2 ==> forall i :: 0 <= i < |r| ==> r[i] in Candidates(points, offset, closed, miterLimit, hypot)
    ensures |points| >= 2 && !closed ==> var es := ShiftedEdges(points, offset, closed, hypot);
      r[0] == es[0].start && PointsEqual(r[|r| - 1], es[|es| - 1].end)
  {
    if |points| < 2 then [] else Deduplicate(Candidates(points, offset, closed, miterLimit, hypot), closed)
  }

  // ---------------------------------------------------------------------
  // Winding direction.

  /** The `reduce` of `offsetPath`: the first `k` shoelace terms
      x_j·y_{j+1} − x_{j+1}·y_j, indices taken modulo the length. */
  function ShoelaceSum(pts: seq<Point>, k: nat): real
    requires 0 < |pts| && k <= |pts|
  {
    if k == 0 then 0.0 else ShoelaceSum(pts, k - 1) + Cross(pts[k - 1], pts[k % |pts|])
  }

  /** The signed area; positive for counter-clockwise points in a y-up
      frame. */
  function Area(pts: seq<Point>): real {
    if |pts| == 0 then 0.0 else ShoelaceSum(pts, |pts|) / 2.0
  }

  /** `direction`: −1 for a closed path with positive area, otherwise 1. */
  function Direction(closed: bool, pts: seq<Point>): (d: real)
    ensures d == 1.0 || d == -1.0
    ensures d == -1.0 <==> closed && Area(pts) > 0.0
  {
    if closed && Area(pts) > 0.0 then -1.0 else 1.0
  }

  /** The cross products of consecutive points, without the wrap-around
      term. */
  function Chain(pts: seq<Point>): real
    decreases |pts|
  {
    if |pts| < 2 then 0.0 else Cross(pts[0], pts[1]) + Chain(pts[1..])
  }

  function Rev(pts: seq<Point>): (r: seq<Point>)
    ensures |r| == |pts|
    ensures forall i :: 0 <= i < |pts| ==> r[i] == pts[|pts| - 1 - i]
    decreases |pts|
  {
    if |pts| == 0 then [] else Rev(pts[1..]) + [pts[0]]
  }

  lemma {:induction false} ChainSnoc(s: seq<Point>, z: Point)
    requires |s| >= 1
    ensures Chain(s + [z]) == Chain(s) + Cross(s[|s| - 1], z)
    decreases |s|
  {
    if |s| == 1 {
      assert (s + [z])[1..] == [z];
    } else {
      assert (s + [z])[1..] == s[1..] + [z];
      ChainSnoc(s[1..], z);
    }
  }

  /** The first `k` terms of the fold are the chain over the first k+1
      points. */
  lemma {:induction false} ShoelacePrefix(pts: seq<Point>, k: nat)
    requires k < |pts|
    ensures ShoelaceSum(pts, k) == Chain(pts[..k + 1])
    decreases k
  {
    if k == 0 {
    } else {
      ShoelacePrefix(pts, k - 1);
      assert k % |pts| == k;
      assert ShoelaceSum(pts, k) == ShoelaceSum(pts, k - 1) + Cross(pts[k - 1], pts[k]);
      assert pts[..k + 1] == pts[..k] + [pts[k]];
      assert pts[..k][k - 1] == pts[k - 1];
      ChainSnoc(pts[..k], pts[k]);
    }
  }

  /** The full fold is the chain plus the closing term from the last point
      back to the first. */
  lemma ShoelaceIsChain(pts: seq<Point>)
    requires |pts| > 0
    ensures ShoelaceSum(pts, |pts|) == Chain(pts) + Cross(pts[|pts| - 1], pts[0])
  {
    ShoelacePrefix(pts, |pts| - 1);
    assert pts[..|pts|] == pts;
  }

  lemma {:induction false} ChainRev(s: seq<Point>)
    ensures Chain(Rev(s)) == -Chain(s)
    decreases |s|
  {
    if |s| >= 2 {
      var t := s[1..];
      ChainRev(t);
      assert Rev(s) == Rev(t) + [s[0]];
      ChainSnoc(Rev(t), s[0]);
      assert Rev(t)[|t| - 1] == t[0];
    }
  }

  /** Traversing the points backwards negates the area. */
  lemma AreaReverse(pts: seq<Point>)
    ensures Area(Rev(pts)) == -Area(pts)
  {
    if |pts| > 0 {
      var r := Rev(pts);
      ShoelaceIsChain(pts);
      ShoelaceIsChain(r);
      ChainRev(pts);
      assert r[|r| - 1] == pts[0] && r[0] == pts[|pts| - 1];
    }
  }

  /** For a closed outline of non-zero area the offset direction flips when
      the outline is traversed the other way round, so the shifted edges
      land on the same side of the outline. */
  lemma DirectionFlips(pts: seq<Point>)
    requires Area(pts) != 0.0
    ensures Direction(true, Rev(pts)) == -Direction(true, pts)
  {
    AreaReverse(pts);
  }

  /** The w×h rectangle drawn from the origin along +x first has area w·h. */
  lemma RectangleArea(w: real, h: real)
    ensures Area([Point(0.0, 0.0), Point(w, 0.0), Point(w, h), Point(0.0, h)]) == w * h
  {
    var pts := [Point(0.0, 0.0), Point(w, 0.0), Point(w, h), Point(0.0, h)];
    ShoelaceIsChain(pts);
    assert Chain(pts[3..]) == 0.0;
    assert Chain(pts[2..]) == Cross(pts[2], pts[3]) + Chain(pts[3..]);
    assert Chain(pts[1..]) == Cross(pts[1], pts[2]) + Chain(pts[2..]);
    assert Chain(pts) == Cross(pts[0], pts[1]) + Chain(pts[1..]);
    assert Chain(pts) == w * h + w * h;
  }

  // ---------------------------------------------------------------------
  // Rebuilding a path.

  /** The path "M p0 L p1 ... L pn", followed by "Z" when `closed`. */
  function BuildPolyline(pts: seq<Point>, closed: bool): (r: Path)
    requires |pts| >= 1
    ensures |r.segments| == |pts| + (if closed then 1 else 0)
    ensures r.segments[0] == Move(pts[0])
    ensures forall i :: 1 <= i < |pts| ==> r.segments[i] == Line(Some(pts[i - 1]), pts[i])
    ensures closed <==> r.segments[|r.segments| - 1] == Close
    ensures IsClosed(r.segments) <==> closed
    ensures forall i :: 1 <= i < |r.segments| - 1 ==> r.segments[i].Line?
    ensures Tracked(r) && Anchored(r.segments)
  {
    var open := LinesThrough(pts, |pts|);
    forall i | 1 <= i < |pts|
      ensures open.segments[i].Line?
    {
      assert open.segments[i] == Line(Some(pts[i - 1]), pts[i]);
    }
    if closed then
      var r := ClosePath(open);
      assert forall i :: 0 <= i < |pts| ==> r.segments[i] == open.segments[i];
      r
    else open
  }

  /** `moveTo(pts[0])` followed by `lineTo` for the next `k - 1` points. */
  function LinesThrough(pts: seq<Point>, k: nat): (r: Path)
    requires 1 <= k <= |pts|
    ensures |r.segments| == k && r.current == Some(pts[k - 1])
    ensures r.segments[0] == Move(pts[0])
    ensures forall i :: 1 <= i < k ==> r.segments[i] == Line(Some(pts[i - 1]), pts[i])
    ensures !IsClosed(r.segments)
    ensures Tracked(r) && Anchored(r.segments)
    decreases k
  {
    if k == 1 then MoveTo(NewPath(), pts[0].x, pts[0].y)
    else
      var prev := LinesThrough(pts, k - 1);
      var r := LineTo(prev, pts[k - 1].x, pts[k - 1].y);
      assert forall i :: 0 <= i < k - 1 ==> r.segments[i] == prev.segments[i];
      r
  }

  /** The path contains a "Z" segment. */
  predicate IsClosed(segs: seq<Segment>) {
    exists i :: 0 <= i < |segs| && segs[i].Close?
  }

  /** Lines 110-120 of `offsetPath`: the original path when the offset
      polyline is empty, otherwise the polyline rebuilt as a path. */
  function Rebuild(path: Path, shifted: seq<Point>, closed: bool): (r: Path)
    ensures |shifted| == 0 ==> r == path
    ensures |shifted| >= 1 ==>
      && |r.segments| == |shifted| + (if closed then 1 else 0)
      && r.segments[0] == Move(shifted[0])
      && (forall i :: 1 <= i < |shifted| ==> r.segments[i] == Line(Some(shifted[i - 1]), shifted[i]))
      && (closed ==> r.segments[|r.segments| - 1] == Close)
      && (IsClosed(r.segments) <==> closed)
      && Tracked(r)
      && (forall i :: 1 <= i < |r.segments| - 1 ==> r.segments[i].Line?)
  {
    if |shifted| == 0 then path
    else BuildPolyline(shifted, closed)
  }

  /** `offsetPath(path, offset)`, flattening with 80 samples per curve.  The
      input comes back unchanged when the distance is not a finite non-zero
      number or fewer than two points result; otherwise the result is one
      move to the offset polyline's first point followed by lines through
      the rest, closed exactly when the input is. */
  function OffsetPath(path: Path, offset: Value, hypot: (real, real) -> real): (r: Path)
    requires offset.Num? && offset.r != 0.0 ==> Anchored(path.segments)
    ensures !offset.Num? || offset.r == 0.0 ==> r == path
    ensures Anchored(path.segments) && |ToPoints(path.segments, 80)| < 2 ==> r == path
    ensures offset.Num? && offset.r != 0.0 && |ToPoints(path.segments, 80)| >= 2 ==>
      && 1 <= |r.segments| <= 2 * |ToPoints(path.segments, 80)| + 1
      && r.segments[0].Move?
      && (forall i :: 1 <= i < |r.segments| - 1 ==> r.segments[i].Line?)
      && (IsClosed(r.segments) <==> IsClosed(path.segments))
      && Tracked(r)
  {
    if !offset.Num? || offset.r == 0.0 then path
    else OffsetFlattened(path, offset.r, hypot)
  }

  /** Lines 97-120 of `offsetPath`, once the distance is a non-zero number. */
  function OffsetFlattened(path: Path, offset: real, hypot: (real, real) -> real): (r: Path)
    requires Anchored(path.segments)
    ensures |ToPoints(path.segments, 80)| < 2 ==> r == path
    ensures |ToPoints(path.segments, 80)| >= 2 ==>
      && 1 <= |r.segments| <= 2 * |ToPoints(path.segments, 80)| + 1
      && r.segments[0].Move?
      && (forall i :: 1 <= i < |r.segments| - 1 ==> r.segments[i].Line?)
      && (IsClosed(r.segments) <==> IsClosed(path.segments))
      && Tracked(r)
  {
    var points := ToPoints(path.segments, 80);
    if |points| < 2 then path
    else
      var closed := IsClosed(path.segments);
      OffsetPoints(path, points, offset * Direction(closed, points), closed, hypot)
  }

  /** Lines 107-120 of `offsetPath`, once the path is flattened to at least
      two points and the signed distance is known. */
  function OffsetPoints(path: Path, points: seq<Point>, distance: real, closed: bool, hypot: (real, real) -> real): (r: Path)
    requires |points| >= 2
    ensures var shifted := OffsetPolyline(points, distance, closed, Abs(distance) * 4.0, hypot);
      && 1 <= |shifted|
      && |r.segments| == |shifted| + (if closed then 1 else 0)
      && |r.segments| <= 2 * |points| + 1
      && r.segments[0] == Move(shifted[0])
      && (forall i :: 1 <= i < |shifted| ==> r.segments[i] == Line(Some(shifted[i - 1]), shifted[i]))
      && (IsClosed(r.segments) <==> closed)
      && Tracked(r)
    ensures forall i :: 1 <= i < |r.segments| - 1 ==> r.segments[i].Line?
  {
    Rebuild(path, OffsetPolyline(points, distance, closed, Abs(distance) * 4.0, hypot), closed)
  }

  /** The miter limit is four times the requested distance, whatever the
      direction. */
  lemma MiterLimitIsFourTimesDistance(offset: real, closed: bool, pts: seq<Point>)
    ensures Abs(offset * Direction(closed, pts)) * 4.0 == 4.0 * Abs(offset)
  {
  }
}
