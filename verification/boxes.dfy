/** Axis-aligned bounding boxes: `Path.bounds()` over a point list and the
    exporters' `mergeBounds`.  The source computes them with `Math.min` and
    `Math.max` over spread arrays; over an empty array those give +Infinity
    and -Infinity, which this model writes as `None`. */
module Boxes {
  import opened Js
  import opened Points

  datatype Box = Box(minX: real, minY: real, maxX: real, maxY: real)

  predicate Ordered(b: Box) {
    b.minX <= b.maxX && b.minY <= b.maxY
  }

  predicate InBox(b: Box, p: Point) {
    b.minX <= p.x <= b.maxX && b.minY <= p.y <= b.maxY
  }

  predicate Encloses(outer: Box, inner: Box) {
    outer.minX <= inner.minX && outer.minY <= inner.minY
    && inner.maxX <= outer.maxX && inner.maxY <= outer.maxY
  }

  function Lo(a: real, b: real): real { if a <= b then a else b }
  function Hi(a: real, b: real): real { if a >= b then a else b }

  /** The smallest box holding `b` and `c`. */
  function Union(b: Box, c: Box): Box {
    Box(Lo(b.minX, c.minX), Lo(b.minY, c.minY), Hi(b.maxX, c.maxX), Hi(b.maxY, c.maxY))
  }

  /** `{ minX: Math.min(...xs), ... }` over the points: `None` when there are
      none, otherwise an ordered box holding every point. */
  function BoxOf(pts: seq<Point>): (r: Option<Box>)
    ensures r.None? <==> |pts| == 0
    ensures r.Some? ==> Ordered(r.value)
    ensures r.Some? ==> forall i :: 0 <= i < |pts| ==> InBox(r.value, pts[i])
    decreases |pts|
  {
    if |pts| == 0 then None
    else
      var p := pts[|pts| - 1];
      var single := Box(p.x, p.y, p.x, p.y);
      match BoxOf(pts[..|pts| - 1])
      case None => Some(single)
      case Some(b) => Some(Union(b, single))
  }

  /** Each side of the box is attained by some point, so no smaller box holds
      them all. */
  lemma {:induction false} BoxOfTight(pts: seq<Point>)
    requires |pts| > 0
    ensures exists i :: 0 <= i < |pts| && pts[i].x == BoxOf(pts).value.minX
    ensures exists i :: 0 <= i < |pts| && pts[i].y == BoxOf(pts).value.minY
    ensures exists i :: 0 <= i < |pts| && pts[i].x == BoxOf(pts).value.maxX
    ensures exists i :: 0 <= i < |pts| && pts[i].y == BoxOf(pts).value.maxY
    decreases |pts|
  {
    var n := |pts| - 1;
    var init := pts[..n];
    if n > 0 {
      BoxOfTight(init);
      var b := BoxOf(init).value;
      var i0 :| 0 <= i0 < n && init[i0].x == b.minX;
      var i1 :| 0 <= i1 < n && init[i1].y == b.minY;
      var i2 :| 0 <= i2 < n && init[i2].x == b.maxX;
      var i3 :| 0 <= i3 < n && init[i3].y == b.maxY;
      assert pts[i0] == init[i0] && pts[i1] == init[i1] && pts[i2] == init[i2] && pts[i3] == init[i3];
      assert pts[n].x == BoxOf(pts).value.minX || pts[i0].x == BoxOf(pts).value.minX;
      assert pts[n].y == BoxOf(pts).value.minY || pts[i1].y == BoxOf(pts).value.minY;
      assert pts[n].x == BoxOf(pts).value.maxX || pts[i2].x == BoxOf(pts).value.maxX;
      assert pts[n].y == BoxOf(pts).value.maxY || pts[i3].y == BoxOf(pts).value.maxY;
    }
  }

  /** Merging one more optional box. */
  function MergeOne(acc: Option<Box>, b: Option<Box>): Option<Box> {
    match (acc, b)
    case (None, _) => b
    case (_, None) => acc
    case (Some(x), Some(y)) => Some(Union(x, y))
  }

  /** `mergeBounds`: the box enclosing every finite input box; `None` exactly
      when no input box is finite (including the empty list). */
  function MergeBounds(bs: seq<Option<Box>>): (r: Option<Box>)
    ensures r.None? <==> forall i :: 0 <= i < |bs| ==> bs[i].None?
    ensures r.Some? ==> forall i :: 0 <= i < |bs| && bs[i].Some? ==> Encloses(r.value, bs[i].value)
    ensures (forall i :: 0 <= i < |bs| && bs[i].Some? ==> Ordered(bs[i].value)) && r.Some? ==> Ordered(r.value)
    decreases |bs|
  {
    if |bs| == 0 then None
    else
      var init := bs[..|bs| - 1];
      assert forall i :: 0 <= i < |init| ==> init[i] == bs[i];
      MergeOne(MergeBounds(init), bs[|bs| - 1])
  }

  /** Each side of the merged box is a side of one of the input boxes. */
  lemma {:induction false} MergeBoundsTight(bs: seq<Option<Box>>)
    requires MergeBounds(bs).Some?
    ensures exists i :: 0 <= i < |bs| && bs[i].Some? && bs[i].value.minX == MergeBounds(bs).value.minX
    ensures exists i :: 0 <= i < |bs| && bs[i].Some? && bs[i].value.minY == MergeBounds(bs).value.minY
    ensures exists i :: 0 <= i < |bs| && bs[i].Some? && bs[i].value.maxX == MergeBounds(bs).value.maxX
    ensures exists i :: 0 <= i < |bs| && bs[i].Some? && bs[i].value.maxY == MergeBounds(bs).value.maxY
    decreases |bs|
  {
    var n := |bs| - 1;
    var init := bs[..n];
    var m := MergeBounds(bs).value;
    if MergeBounds(init).None? {
      assert bs[n].Some? && m == bs[n].value;
    } else {
      MergeBoundsTight(init);
      var b := MergeBounds(init).value;
      var i0 :| 0 <= i0 < n && init[i0].Some? && init[i0].value.minX == b.minX;
      var i1 :| 0 <= i1 < n && init[i1].Some? && init[i1].value.minY == b.minY;
      var i2 :| 0 <= i2 < n && init[i2].Some? && init[i2].value.maxX == b.maxX;
      var i3 :| 0 <= i3 < n && init[i3].Some? && init[i3].value.maxY == b.maxY;
      assert bs[i0] == init[i0] && bs[i1] == init[i1] && bs[i2] == init[i2] && bs[i3] == init[i3];
      if bs[n].None? {
        assert m == b;
      } else {
        assert bs[n].value.minX == m.minX || bs[i0].value.minX == m.minX;
        assert bs[n].value.minY == m.minY || bs[i1].value.minY == m.minY;
        assert bs[n].value.maxX == m.maxX || bs[i2].value.maxX == m.maxX;
        assert bs[n].value.maxY == m.maxY || bs[i3].value.maxY == m.maxY;
      }
    }
  }

  /** Merging the boxes of several point lists is the box of all the points
      together. */
  lemma {:induction false} MergeOfConcat(a: seq<Point>, b: seq<Point>)
    ensures MergeBounds([BoxOf(a), BoxOf(b)]) == BoxOf(a + b)
    decreases |b|
  {
    assert [BoxOf(a), BoxOf(b)][..1] == [BoxOf(a)];
    assert [BoxOf(a)][..0] == [];
    if |b| == 0 {
      assert a + b == a;
      assert MergeBounds([BoxOf(a)]) == MergeOne(None, BoxOf(a));
    } else {
      var init := b[..|b| - 1];
      assert (a + b)[..|a + b| - 1] == a + init;
      assert (a + b)[|a + b| - 1] == b[|b| - 1];
      MergeOfConcat(a, init);
      assert [BoxOf(a), BoxOf(init)][..1] == [BoxOf(a)];
    }
  }
}
