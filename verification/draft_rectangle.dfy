/** `draftRectangle` of src/patterns/test_rectangle/draft.js: a w×h panel,
    an optional seam-allowance outline around it, and its annotations. */
module RectangleDraft {
  import opened Js
  import opened Points
  import opened Strings
  import opened Boxes
  import opened Paths
  import opened Offset
  import opened Annotations
  import opened Drafts
  import opened Panels
  import opened PatternSchemas

  const ModuleId: string := "test_rectangle"

  /** The panel outline "M 0 0 L w 0 L w h L 0 h Z", built with the path
      builders. */
  function RectanglePanel(w: real, h: real): (p: Path)
    ensures p.segments == [
      Move(Point(0.0, 0.0)),
      Line(Some(Point(0.0, 0.0)), Point(w, 0.0)),
      Line(Some(Point(w, 0.0)), Point(w, h)),
      Line(Some(Point(w, h)), Point(0.0, h)),
      Close]
    ensures Tracked(p) && Anchored(p.segments)
  {
    var p0 := MoveTo(NewPath(), 0.0, 0.0);
    var p1 := LineTo(p0, w, 0.0);
    var p2 := LineTo(p1, w, h);
    var p3 := LineTo(p2, 0.0, h);
    ClosePath(p3)
  }

  /** The four annotations: a grainline down the middle, a notch a quarter
      along the top edge, one three quarters along the bottom edge, and the
      panel label at the centre. */
  function RectangleAnnotations(w: real, h: real): (r: seq<Annotation>)
    ensures |r| == 4
    ensures r[0].Grainline? && r[1].Notch? && r[2].Notch? && r[3].Label?
    ensures r[3].point == Point(w / 2.0, h / 2.0)
  {
    [ MakeGrainline(Point(w * 0.5, 1.0), Point(w * 0.5, h - 1.0)),
      MakeNotch(Point(w * 0.25, 0.0), None),
      MakeNotch(Point(w * 0.75, h), None),
      MakeLabel(Point(w * 0.5, h * 0.5), EnRu("Panel", "Панель")) ]
  }

  /** `draftRectangle(measurements)`. */
  function DraftRectangle(measurements: map<string, Value>, hypot: (real, real) -> real): (r: Result<Draft>)
    ensures var w, h, sa := Lookup(measurements, "width_cm"), Lookup(measurements, "height_cm"), Lookup(measurements, "seam_allowance_cm");
      (r.Throws? <==> !(w.Num? && h.Num? && sa.Num?))
      && (r.Throws? ==> r.message == InvalidMeasurements)
      && (r.Ok? ==>
        var panel := RectanglePanel(w.r, h.r);
        var d := r.value;
        && d.paths == Some(SeamTable("panel", panel, if sa.r > 0.0 then Some(OffsetPath(panel, sa, hypot)) else None))
        && d.panels == Some([Panel(Some("panel"), Some("Panel"), None, None, d.paths)])
        && d.annotations == Some(RectangleAnnotations(w.r, h.r))
        && d.meta.Some?
        && d.meta.value.unit == Some("cm")
        && d.meta.value.moduleId == ModuleId
        && d.meta.value.moduleVersion == "0.1.0"
        && (d.meta.value.seamAllowanceApplied <==> sa.r > 0.0))
  {
    var width := Lookup(measurements, "width_cm");
    var height := Lookup(measurements, "height_cm");
    var seamAllowance := Lookup(measurements, "seam_allowance_cm");
    if !(width.Num? && height.Num? && seamAllowance.Num?) then Throws(InvalidMeasurements)
    else
      var panel := RectanglePanel(width.r, height.r);
      var seamPath := if seamAllowance.r > 0.0 then Some(OffsetPath(panel, seamAllowance, hypot)) else None;
      var paths := SeamTable("panel", panel, seamPath);
      Ok(Draft(
        Some([Panel(Some("panel"), Some("Panel"), None, None, Some(paths))]),
        Some(paths),
        Some(RectangleAnnotations(width.r, height.r)),
        Some(Meta(Some("cm"), Some(EnRu("Test Rectangle", "Тестовый прямоугольник")), ModuleId, "0.1.0", seamAllowance.r > 0.0, None))))
  }

  /** The schema and the draft's meta name the same module. */
  lemma ModuleIdAgrees(measurements: map<string, Value>, hypot: (real, real) -> real)
    ensures RectangleSchema.id == ModuleId
    ensures DraftRectangle(measurements, hypot).Ok? ==> DraftRectangle(measurements, hypot).value.meta.value.moduleId == RectangleSchema.id
  {
  }

  /** A closed quadrilateral flattens to its four corners. */
  lemma QuadPoints(a: Point, b: Point, c: Point, d: Point)
    ensures ToPoints([Move(a), Line(Some(a), b), Line(Some(b), c), Line(Some(c), d), Close], 20) == [a, b, c, d]
  {
    var segs := [Move(a), Line(Some(a), b), Line(Some(b), c), Line(Some(c), d), Close];
    OpenQuadPoints(a, b, c, d);
    assert segs[..4] == [Move(a), Line(Some(a), b), Line(Some(b), c), Line(Some(c), d)];
  }

  lemma OpenQuadPoints(a: Point, b: Point, c: Point, d: Point)
    ensures ToPoints([Move(a), Line(Some(a), b), Line(Some(b), c), Line(Some(c), d)], 20) == [a, b, c, d]
  {
    var segs := [Move(a), Line(Some(a), b), Line(Some(b), c), Line(Some(c), d)];
    TrianglePoints(a, b, c);
    assert segs[..3] == [Move(a), Line(Some(a), b), Line(Some(b), c)];
  }

  lemma TrianglePoints(a: Point, b: Point, c: Point)
    ensures ToPoints([Move(a), Line(Some(a), b), Line(Some(b), c)], 20) == [a, b, c]
  {
    var segs := [Move(a), Line(Some(a), b), Line(Some(b), c)];
    EdgePoints(a, b);
    assert segs[..2] == [Move(a), Line(Some(a), b)];
  }

  lemma EdgePoints(a: Point, b: Point)
    ensures ToPoints([Move(a), Line(Some(a), b)], 20) == [a, b]
  {
    var segs := [Move(a), Line(Some(a), b)];
    assert segs[..1] == [Move(a)];
    assert [Move(a)][..0] == [];
  }

  /** The box of the rectangle's corners, in drawing order. */
  lemma CornerBox(w: real, h: real)
    requires w >= 0.0 && h >= 0.0
    ensures BoxOf([Point(0.0, 0.0), Point(w, 0.0), Point(w, h), Point(0.0, h)]) == Some(Box(0.0, 0.0, w, h))
  {
    var pts := [Point(0.0, 0.0), Point(w, 0.0), Point(w, h), Point(0.0, h)];
    var p1, p2, p3 := pts[..1], pts[..2], pts[..3];
    assert p1[..0] == [];
    assert BoxOf(p1) == Some(Box(0.0, 0.0, 0.0, 0.0));
    assert p2[..1] == p1;
    assert BoxOf(p2) == Some(Box(0.0, 0.0, w, 0.0));
    assert p3[..2] == p2;
    assert BoxOf(p3) == Some(Box(0.0, 0.0, w, h));
    assert pts[..3] == p3;
  }

  /** The panel's bounds are the rectangle itself. */
  lemma PanelBounds(w: real, h: real)
    requires w >= 0.0 && h >= 0.0
    ensures Bounds(RectanglePanel(w, h)) == Some(Box(0.0, 0.0, w, h))
  {
    QuadPoints(Point(0.0, 0.0), Point(w, 0.0), Point(w, h), Point(0.0, h));
    CornerBox(w, h);
  }

  /** The drafted paths expose a seam path to `hasSeamPaths` exactly when
      the seam allowance is positive. */
  lemma SeamPathIffAllowance(measurements: map<string, Value>, hypot: (real, real) -> real)
    requires DraftRectangle(measurements, hypot).Ok?
    ensures HasSeamPaths(CollectPaths(Some(DraftRectangle(measurements, hypot).value)))
      <==> Lookup(measurements, "seam_allowance_cm").r > 0.0
  {
    var d := DraftRectangle(measurements, hypot).value;
    var sa := Lookup(measurements, "seam_allowance_cm");
    var panel := RectanglePanel(Lookup(measurements, "width_cm").r, Lookup(measurements, "height_cm").r);
    DraftNamesPlain();
    OnePanelSeamTable(d, "panel", panel, if sa.r > 0.0 then Some(OffsetPath(panel, sa, hypot)) else None);
  }
}
