/** The segment list of src/core/geometry/Path.js: builders, SVG path text,
    flattening to points and bounds.  The source mutates the path and
    returns `this`; here every builder returns the new path. */
module Paths {
  import opened Js
  import opened Points
  import opened Bezier
  import opened Strings
  import opened Boxes

  /** A segment `{ type, points }`.  `from` is the current point when the
      segment was added, `null` before the first `moveTo`. */
  datatype Segment =
    | Move(to: Point)
    | Line(from: Option<Point>, to: Point)
    | Curve(from: Option<Point>, c1: Point, c2: Point, to: Point)
    | Close

  datatype Path = Path(segments: seq<Segment>, current: Option<Point>)

  /** The endpoint of the last segment that has one: the current point a
      path built from scratch has after `segs`. */
  function LastEnd(segs: seq<Segment>): Option<Point>
    decreases |segs|
  {
    if |segs| == 0 then None
    else match segs[|segs| - 1]
      case Close => LastEnd(segs[..|segs| - 1])
      case Move(to) => Some(to)
      case Line(_, to) => Some(to)
      case Curve(_, _, _, to) => Some(to)
  }

  /** A segment records `start` as the point it was drawn from. */
  predicate StartsFrom(s: Segment, start: Option<Point>) {
    match s
    case Line(from, _) => from == start
    case Curve(from, _, _, _) => from == start
    case _ => true
  }

  /** The invariant every path built with the builders keeps: the current
      point is the last endpoint and each line or curve starts where the
      segments before it ended. */
  predicate Tracked(p: Path) {
    && p.current == LastEnd(p.segments)
    && forall i :: 0 <= i < |p.segments| ==> StartsFrom(p.segments[i], LastEnd(p.segments[..i]))
  }

  /** Every curve has a start point; `toPoints` throws a TypeError on a curve
      drawn before the first `moveTo`. */
  predicate Anchored(segs: seq<Segment>) {
    forall i :: 0 <= i < |segs| ==> (segs[i].Curve? ==> segs[i].from.Some?)
  }

  /** `new Path()`. */
  function NewPath(): (r: Path)
    ensures |r.segments| == 0 && r.current.None?
    ensures Tracked(r) && Anchored(r.segments)
  {
    Path([], None)
  }

  /** Appending a segment drawn from the current point, and moving the
      current point to the new last endpoint, keeps a path tracked. */
  lemma TrackedSnoc(p: Path, s: Segment, cur: Option<Point>)
    ensures Tracked(p) && StartsFrom(s, p.current) && cur == LastEnd(p.segments + [s])
      ==> Tracked(Path(p.segments + [s], cur))
  {
    if !(Tracked(p) && StartsFrom(s, p.current) && cur == LastEnd(p.segments + [s])) { return; }
    var segs := p.segments + [s];
    assert segs[..|p.segments|] == p.segments;
    forall i | 0 <= i < |segs|
      ensures StartsFrom(segs[i], LastEnd(segs[..i]))
    {
      if i < |p.segments| {
        assert segs[..i] == p.segments[..i];
      }
    }
  }

  /** `moveTo(x, y)`. */
  function MoveTo(p: Path, x: real, y: real): (r: Path)
    ensures r.segments == p.segments + [Move(Point(x, y))]
    ensures r.current == Some(Point(x, y))
    ensures Tracked(p) ==> Tracked(r)
    ensures Anchored(r.segments) <==> Anchored(p.segments)
  {
    var r := Path(p.segments + [Move(Point(x, y))], Some(Point(x, y)));
    assert r.segments[..|p.segments|] == p.segments;
    TrackedSnoc(p, Move(Point(x, y)), r.current);
    r
  }

  /** `lineTo(x, y)`: the segment remembers the previous current point. */
  function LineTo(p: Path, x: real, y: real): (r: Path)
    ensures r.segments == p.segments + [Line(p.current, Point(x, y))]
    ensures r.current == Some(Point(x, y))
    ensures Tracked(p) ==> Tracked(r)
    ensures Anchored(r.segments) <==> Anchored(p.segments)
  {
    var r := Path(p.segments + [Line(p.current, Point(x, y))], Some(Point(x, y)));
    assert r.segments[..|p.segments|] == p.segments;
    TrackedSnoc(p, Line(p.current, Point(x, y)), r.current);
    r
  }

  /** `curveTo(cp1x, cp1y, cp2x, cp2y, x, y)`: a curve is anchored only when
      a current point exists. */
  function CurveTo(p: Path, c1x: real, c1y: real, c2x: real, c2y: real, x: real, y: real): (r: Path)
    ensures r.segments == p.segments + [Curve(p.current, Point(c1x, c1y), Point(c2x, c2y), Point(x, y))]
    ensures r.current == Some(Point(x, y))
    ensures Tracked(p) ==> Tracked(r)
    ensures Anchored(r.segments) <==> Anchored(p.segments) && p.current.Some?
  {
    var s := Curve(p.current, Point(c1x, c1y), Point(c2x, c2y), Point(x, y));
    var r := Path(p.segments + [s], Some(Point(x, y)));
    assert r.segments[..|p.segments|] == p.segments;
    assert r.segments[|p.segments|] == s;
    TrackedSnoc(p, s, r.current);
    r
  }

  /** `close()`: appends "Z" and keeps the current point. */
  function ClosePath(p: Path): (r: Path)
    ensures r.segments == p.segments + [Close]
    ensures r.current == p.current
    ensures Tracked(p) ==> Tracked(r)
    ensures Anchored(r.segments) <==> Anchored(p.segments)
  {
    var r := Path(p.segments + [Close], p.current);
    assert r.segments[..|p.segments|] == p.segments;
    assert LastEnd(r.segments) == LastEnd(p.segments);
    TrackedSnoc(p, Close, r.current);
    r
  }

  /** A path drawn from scratch never ends a curve without a start once it
      begins with `moveTo`. */
  lemma {:induction false} LastEndAfterMove(segs: seq<Segment>)
    requires |segs| > 0 && segs[0].Move?
    ensures LastEnd(segs).Some?
    decreases |segs|
  {
    if |segs| > 1 && segs[|segs| - 1].Close? {
      LastEndAfterMove(segs[..|segs| - 1]);
    }
  }

  lemma StartedPathIsAnchored(p: Path)
    requires Tracked(p) && |p.segments| > 0 && p.segments[0].Move?
    ensures Anchored(p.segments)
  {
    forall i | 0 <= i < |p.segments| && p.segments[i].Curve?
      ensures p.segments[i].from.Some?
    {
      assert i > 0;
      assert p.segments[..i][0] == p.segments[0];
      LastEndAfterMove(p.segments[..i]);
    }
  }

  // ---------------------------------------------------------------------
  // SVG path text.

  /** The single-letter segment type. */
  function Letter(s: Segment): string {
    match s
    case Move(_) => "M"
    case Line(_, _) => "L"
    case Curve(_, _, _, _) => "C"
    case Close => "Z"
  }

  /** The text one segment contributes to `toSVGPath`, numbers written by
      `fmt`. */
  function SvgCommand(s: Segment, fmt: real -> string): string {
    match s
    case Move(p) => "M " + fmt(p.x) + " " + fmt(p.y)
    case Line(_, p) => "L " + fmt(p.x) + " " + fmt(p.y)
    case Curve(_, c1, c2, p) =>
      "C " + fmt(c1.x) + " " + fmt(c1.y) + " " + fmt(c2.x) + " " + fmt(c2.y) + " " + fmt(p.x) + " " + fmt(p.y)
    case Close => "Z"
  }

  /** The `parts` array: one command per segment, in order, each beginning
      with its segment's letter. */
  function SvgCommands(segs: seq<Segment>, fmt: real -> string): (parts: seq<string>)
    ensures |parts| == |segs|
    ensures forall i :: 0 <= i < |segs| ==> parts[i] == SvgCommand(segs[i], fmt)
    ensures forall i :: 0 <= i < |segs| ==> StartsWith(parts[i], Letter(segs[i]))
  {
    seq(|segs|, i requires 0 <= i < |segs| => SvgCommand(segs[i], fmt))
  }

  /** `toSVGPath()`: empty for an empty path, otherwise opening with the
      first segment's letter and holding every segment's command. */
  function ToSvgPath(p: Path, fmt: real -> string): (r: string)
    ensures |p.segments| == 0 ==> r == ""
    ensures |p.segments| > 0 ==> StartsWith(r, Letter(p.segments[0]))
    ensures forall i :: 0 <= i < |p.segments| ==> Contains(r, SvgCommand(p.segments[i], fmt))
  {
    var parts := SvgCommands(p.segments, fmt);
    JoinContainsAll(parts, " ");
    if |parts| == 0 then ""
    else
      JoinEnds(parts, " ");
      var j := Join(parts, " ");
      assert j[..|parts[0]|][..|Letter(p.segments[0])|] == j[..|Letter(p.segments[0])|];
      j
  }

  /** Appending a segment appends its command after one space; the text of
      an empty path is empty. */
  lemma SvgPathAppend(segs: seq<Segment>, s: Segment, c1: Option<Point>, c2: Option<Point>, fmt: real -> string)
    ensures ToSvgPath(Path([], c1), fmt) == ""
    ensures ToSvgPath(Path(segs + [s], c1), fmt)
         == if |segs| == 0 then SvgCommand(s, fmt)
            else ToSvgPath(Path(segs, c2), fmt) + " " + SvgCommand(s, fmt)
  {
    assert SvgCommands(segs + [s], fmt) == SvgCommands(segs, fmt) + [SvgCommand(s, fmt)];
    JoinAppend(SvgCommands(segs, fmt), SvgCommand(s, fmt), " ");
  }

  // ---------------------------------------------------------------------
  // Flattening.

  /** Number of segments of the given letter. */
  function CountOf(segs: seq<Segment>, letter: string): nat
    decreases |segs|
  {
    if |segs| == 0 then 0
    else CountOf(segs[..|segs| - 1], letter) + (if Letter(segs[|segs| - 1]) == letter then 1 else 0)
  }

  lemma CountOfSnoc(init: seq<Segment>, last: Segment, n: nat)
    ensures var segs := init + [last];
      CountOf(segs, "M") + CountOf(segs, "L") + n * CountOf(segs, "C")
      == CountOf(init, "M") + CountOf(init, "L") + n * CountOf(init, "C")
         + match last case Move(_) => 1 case Line(_, _) => 1 case Curve(_, _, _, _) => n case Close => 0
  {
    var segs := init + [last];
    assert segs[..|segs| - 1] == init;
    var c := CountOf(init, "C");
    assert n * (c + 1) == n * c + n;
  }

  /** The points one segment contributes: a move or line its endpoint, a
      curve its samples after the first, a close nothing. */
  function SegmentPoints(s: Segment, n: nat): (r: seq<Point>)
    requires n >= 1
    requires s.Curve? ==> s.from.Some?
    ensures |r| == match s case Move(_) => 1 case Line(_, _) => 1 case Curve(_, _, _, _) => n case Close => 0
    ensures !s.Close? ==> r[|r| - 1] == s.to
  {
    match s
    case Move(p) => [p]
    case Line(_, p) => [p]
    case Curve(from, c1, c2, p) => SampleCubic(from.value, c1, c2, p, n)[1..]
    case Close => []
  }

  /** `toPoints(n)`: the points of every segment in order.  Its length is
      #M + #L + n·#C, and whenever some segment has an endpoint the last
      point emitted is the last such endpoint. */
  function ToPoints(segs: seq<Segment>, n: nat): (r: seq<Point>)
    requires n >= 1 && Anchored(segs)
    ensures |r| == CountOf(segs, "M") + CountOf(segs, "L") + n * CountOf(segs, "C")
    ensures LastEnd(segs).Some? ==> |r| > 0 && r[|r| - 1] == LastEnd(segs).value
    decreases |segs|
  {
    if |segs| == 0 then []
    else
      var init := segs[..|segs| - 1];
      assert Anchored(init) by {
        forall i | 0 <= i < |init| ensures init[i] == segs[i] { }
      }
      var last := segs[|segs| - 1];
      assert last.Curve? ==> last.from.Some?;
      assert segs == init + [last];
      CountOfSnoc(init, last, n);
      var r0 := ToPoints(init, n);
      var rs := SegmentPoints(last, n);
      assert last.Close? ==> r0 + rs == r0;
      r0 + rs
  }

  lemma AnchoredParts(a: seq<Segment>, b: seq<Segment>)
    requires Anchored(a + b)
    ensures Anchored(a) && Anchored(b)
  {
    assert forall i :: 0 <= i < |a| ==> a[i] == (a + b)[i];
    assert forall i :: 0 <= i < |b| ==> b[i] == (a + b)[|a| + i];
  }

  /** Flattening one more segment appends that segment's points. */
  lemma ToPointsSnoc(pre: seq<Segment>, s: Segment, n: nat)
    requires n >= 1 && Anchored(pre) && (s.Curve? ==> s.from.Some?)
    ensures Anchored(pre + [s])
    ensures ToPoints(pre + [s], n) == ToPoints(pre, n) + SegmentPoints(s, n)
  {
    var segs := pre + [s];
    forall i | 0 <= i < |segs| ensures segs[i].Curve? ==> segs[i].from.Some? {
      if i < |pre| { assert segs[i] == pre[i]; }
    }
    assert segs[..|segs| - 1] == pre;
  }

  /** Flattening distributes over concatenation of segment lists. */
  lemma {:induction false} ToPointsConcat(a: seq<Segment>, b: seq<Segment>, n: nat)
    requires n >= 1 && Anchored(a + b)
    ensures Anchored(a) && Anchored(b)
    ensures ToPoints(a + b, n) == ToPoints(a, n) + ToPoints(b, n)
    decreases |b|
  {
    AnchoredParts(a, b);
    if |b| == 0 {
      assert a + b == a;
    } else {
      var init := b[..|b| - 1];
      var last := b[|b| - 1];
      assert b == init + [last];
      assert a + b == (a + init) + [last];
      AnchoredParts(a + init, [last]);
      AnchoredParts(init, [last]);
      ToPointsConcat(a, init, n);
      assert ToPoints(a + b, n) == ToPoints(a + init, n) + SegmentPoints(last, n);
      assert ToPoints(b, n) == ToPoints(init, n) + SegmentPoints(last, n);
    }
  }

  /** `bounds()`: the box of `toPoints()` with the default 20 samples per
      curve; `None` for a path with no points. */
  function Bounds(p: Path): (r: Option<Box>)
    requires Anchored(p.segments)
    ensures r.None? <==> CountOf(p.segments, "M") + CountOf(p.segments, "L") + CountOf(p.segments, "C") == 0
    ensures r.Some? ==> Ordered(r.value)
    ensures r.Some? ==> forall q :: q in ToPoints(p.segments, 20) ==> InBox(r.value, q)
  {
    BoxOf(ToPoints(p.segments, 20))
  }

  /** Every vertex of a path lies in its bounds. */
  lemma EndpointsInBounds(p: Path, i: nat)
    requires Anchored(p.segments) && i < |p.segments| && !p.segments[i].Close?
    ensures Bounds(p).Some? && InBox(Bounds(p).value, p.segments[i].to)
  {
    VertexInPoints(p.segments, i);
  }

  /** Every vertex of a path is among its flattened points. */
  lemma {:induction false} VertexInPoints(segs: seq<Segment>, i: nat)
    requires Anchored(segs) && i < |segs| && !segs[i].Close?
    ensures segs[i].to in ToPoints(segs, 20)
  {
    var front := segs[..i + 1];
    assert segs == front + segs[i + 1..];
    ToPointsConcat(front, segs[i + 1..], 20);
    assert front[|front| - 1] == segs[i];
    assert LastEnd(front) == Some(segs[i].to);
    var fp := ToPoints(front, 20);
    assert ToPoints(segs, 20)[|fp| - 1] == fp[|fp| - 1];
  }
}
