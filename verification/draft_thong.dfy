/** `draftThong` of src/patterns/panties_thong_basic/draft.js: the front of
    a thong, with a narrow crotch whose width and the seam allowance (in
    mm) come from the options.  `Number(string)` is `numberOf`, and the
    `edgeLabel` annotation constructor the draft calls, which the
    annotations file does not define, is the parameter `edgeLabel`. */
module ThongDraft {
  import opened Js
  import opened Points
  import opened Paths
  import opened Offset
  import opened Annotations
  import opened Drafts
  import opened Panels
  import opened MathUtil
  import opened PatternSchemas

  const ModuleId: string := "panties_thong_basic"

  /** The derived widths of the block, in cm. */
  datatype Block = Block(waistWidth: real, hipWidth: real, rise: real, legCurveDepth: real, thongWidth: real)

  /** Line 20: `clamp(Number(options.thongWidth ?? 3), 2, 6)`.  A value that
      converts to NaN stays NaN through the clamp. */
  function ThongWidth(options: map<string, Value>, numberOf: string -> Value): (r: Value)
    ensures r.Num? || r.NaN?
    ensures r.Num? ==> 2.0 <= r.r <= 6.0
    ensures Lookup(options, "thongWidth").Null? || Lookup(options, "thongWidth").Undefined? ==> r == Num(3.0)
    ensures Lookup(options, "thongWidth").Num? ==> r == Num(Clamp(Lookup(options, "thongWidth").r, 2.0, 6.0))
    ensures r.Num? <==> ToNumber(Nullish(Lookup(options, "thongWidth"), Num(3.0)), numberOf).Num?
  {
    match ToNumber(Nullish(Lookup(options, "thongWidth"), Num(3.0)), numberOf)
    case Num(x) => Num(Clamp(x, 2.0, 6.0))
    case _ => NaN
  }

  /** Lines 16-20 once the thong width is a number. */
  function ThongBlock(waist: real, hip: real, rise: real, thongWidth: real): (b: Block)
    requires 2.0 <= thongWidth <= 6.0
    ensures 6.0 <= b.legCurveDepth <= 14.0
    ensures 2.0 <= b.thongWidth <= 6.0 && b.thongWidth == thongWidth
    ensures b.waistWidth * 4.0 == waist + 6.0 && b.hipWidth * 4.0 == hip + 10.0
    ensures b.rise == rise
  {
    var hipWidth := hip / 4.0 + 2.5;
    Block(waist / 4.0 + 1.5, hipWidth, rise, Clamp(hipWidth * 0.4, 6.0, 14.0), thongWidth)
  }

  /** The front outline: the leg curve ends at the thong width, 0.6 of the
      leg-curve depth below the rise line. */
  function FrontPath(b: Block): (p: Path)
    ensures |p.segments| == 6
    ensures p.segments[0] == Move(Point(0.0, 0.0))
    ensures p.segments[1] == Line(Some(Point(0.0, 0.0)), Point(b.waistWidth, 0.0))
    ensures p.segments[2] == Curve(Some(Point(b.waistWidth, 0.0)), Point(b.waistWidth + 1.0, b.rise * 0.3),
                                   Point(b.hipWidth, b.rise * 0.6), Point(b.hipWidth, b.rise))
    ensures p.segments[3] == Curve(Some(Point(b.hipWidth, b.rise)), Point(b.hipWidth, b.rise + b.legCurveDepth),
                                   Point(b.thongWidth, b.rise + b.legCurveDepth), Point(b.thongWidth, b.rise + b.legCurveDepth * 0.6))
    ensures p.segments[4] == Line(Some(Point(b.thongWidth, b.rise + b.legCurveDepth * 0.6)), Point(0.0, b.rise))
    ensures p.segments[5] == Close
    ensures Tracked(p) && Anchored(p.segments)
  {
    var p0 := MoveTo(NewPath(), 0.0, 0.0);
    assert p0.segments == [Move(Point(0.0, 0.0))];
    var p1 := LineTo(p0, b.waistWidth, 0.0);
    assert p1.segments == p0.segments + [Line(Some(Point(0.0, 0.0)), Point(b.waistWidth, 0.0))];
    var p2 := CurveTo(p1, b.waistWidth + 1.0, b.rise * 0.3, b.hipWidth, b.rise * 0.6, b.hipWidth, b.rise);
    var p3 := CurveTo(p2, b.hipWidth, b.rise + b.legCurveDepth, b.thongWidth, b.rise + b.legCurveDepth,
                      b.thongWidth, b.rise + b.legCurveDepth * 0.6);
    var p4 := LineTo(p3, 0.0, b.rise);
    ClosePath(p4)
  }

  /** Line 38: `Number(options.seamAllowance ?? 0)`, in mm. */
  function SeamAllowanceMm(options: map<string, Value>, numberOf: string -> Value): Value {
    ToNumber(Nullish(Lookup(options, "seamAllowance"), Num(0.0)), numberOf)
  }

  /** Line 39: a positive number of mm becomes cm; anything else (NaN, zero,
      negative) is no allowance. */
  function SeamAllowanceCm(mm: Value): (sa: real)
    ensures sa >= 0.0
    ensures sa > 0.0 <==> mm.Num? && mm.r > 0.0
    ensures sa > 0.0 ==> sa * 10.0 == mm.r
  {
    if mm.Num? && mm.r > 0.0 then mm.r / 10.0 else 0.0
  }

  /** Line 75: the mm value recorded in meta. */
  function RecordedMm(mm: Value): (r: real)
    ensures r == SeamAllowanceCm(mm) * 10.0
  {
    if SeamAllowanceCm(mm) > 0.0 then mm.r else 0.0
  }

  function FrontAnnotations(b: Block, edgeLabel: (Point, Text) -> Annotation): (r: seq<Annotation>)
    ensures |r| == 4 && r[0].Grainline? && r[1].Notch? && r[2].Label?
    ensures r[3] == edgeLabel(Point(b.waistWidth * 0.5, 1.0), EnRu("Waistline", "Линия талии"))
  {
    [ MakeGrainline(Point(b.hipWidth * 0.5, 2.0), Point(b.hipWidth * 0.5, b.rise - 2.0)),
      MakeNotch(Point(b.hipWidth * 0.5, b.rise), None),
      MakeLabel(Point(b.hipWidth * 0.3, b.rise * 0.5), EnRu("Thong Front", "Перед стрингов")),
      edgeLabel(Point(b.waistWidth * 0.5, 1.0), EnRu("Waistline", "Линия талии")) ]
  }

  /** `draftThong(measurements, options)`. */
  function DraftThong(measurements: map<string, Value>, options: map<string, Value>, numberOf: string -> Value,
                      hypot: (real, real) -> real, edgeLabel: (Point, Text) -> Annotation): (r: Result<Draft>)
    requires ThongWidth(options, numberOf).Num?
    ensures var w, h, rs, l := Lookup(measurements, "waist"), Lookup(measurements, "hip"), Lookup(measurements, "rise"), Lookup(measurements, "legOpening");
      (r.Throws? <==> !(w.Num? && h.Num? && rs.Num? && l.Num?))
      && (r.Throws? ==> r.message == InvalidMeasurements)
      && (r.Ok? ==>
        var b := ThongBlock(w.r, h.r, rs.r, ThongWidth(options, numberOf).r);
        var front := FrontPath(b);
        var mm := SeamAllowanceMm(options, numberOf);
        var sa := SeamAllowanceCm(mm);
        var d := r.value;
        && d.paths == Some(SeamTable("front", front, if sa > 0.0 then Some(OffsetPath(front, Num(sa), hypot)) else None))
        && d.panels == Some([Panel(Some("front"), Some("Front"), Some(1), Some("Main"), d.paths)])
        && d.annotations == Some(FrontAnnotations(b, edgeLabel))
        && d.meta.Some?
        && d.meta.value.unit == Some("cm")
        && d.meta.value.moduleId == ModuleId
        && (d.meta.value.seamAllowanceApplied <==> sa > 0.0)
        && d.meta.value.seamAllowanceMm == Some(RecordedMm(mm)))
  {
    var waist := Lookup(measurements, "waist");
    var hip := Lookup(measurements, "hip");
    var rise := Lookup(measurements, "rise");
    var legOpening := Lookup(measurements, "legOpening");
    if !(waist.Num? && hip.Num? && rise.Num? && legOpening.Num?) then Throws(InvalidMeasurements)
    else
      var b := ThongBlock(waist.r, hip.r, rise.r, ThongWidth(options, numberOf).r);
      var front := FrontPath(b);
      var mm := SeamAllowanceMm(options, numberOf);
      var sa := SeamAllowanceCm(mm);
      var seamPath := if sa > 0.0 then Some(OffsetPath(front, Num(sa), hypot)) else None;
      var paths := SeamTable("front", front, seamPath);
      Ok(Draft(
        Some([Panel(Some("front"), Some("Front"), Some(1), Some("Main"), Some(paths))]),
        Some(paths),
        Some(FrontAnnotations(b, edgeLabel)),
        Some(Meta(Some("cm"), Some(EnRu("Panties Thong Basic", "Базовые стринги")), ModuleId, "0.1.0", sa > 0.0, Some(RecordedMm(mm))))))
  }

  /** The schema and the draft's meta name the same module. */
  lemma ModuleIdAgrees()
    ensures ThongSchema.id == ModuleId
  {
  }

  /** `hasSeamPaths` on the draft agrees with a positive allowance in mm. */
  lemma SeamPathIffPositiveMm(measurements: map<string, Value>, options: map<string, Value>, numberOf: string -> Value,
                              hypot: (real, real) -> real, edgeLabel: (Point, Text) -> Annotation)
    requires ThongWidth(options, numberOf).Num?
    requires DraftThong(measurements, options, numberOf, hypot, edgeLabel).Ok?
    ensures var mm := SeamAllowanceMm(options, numberOf);
      HasSeamPaths(CollectPaths(Some(DraftThong(measurements, options, numberOf, hypot, edgeLabel).value)))
      <==> mm.Num? && mm.r > 0.0
  {
    var d := DraftThong(measurements, options, numberOf, hypot, edgeLabel).value;
    var b := ThongBlock(Lookup(measurements, "waist").r, Lookup(measurements, "hip").r,
                        Lookup(measurements, "rise").r, ThongWidth(options, numberOf).r);
    var front := FrontPath(b);
    var sa := SeamAllowanceCm(SeamAllowanceMm(options, numberOf));
    DraftNamesPlain();
    OnePanelSeamTable(d, "front", front, if sa > 0.0 then Some(OffsetPath(front, Num(sa), hypot)) else None);
  }

  /** With the schema's option defaults the thong is 3 cm wide and gets a
      0.6 cm allowance, recorded as 6 mm. */
  lemma DefaultOptions(numberOf: string -> Value)
    ensures ThongWidth(ThongSchema.optionDefaults, numberOf) == Num(3.0)
    ensures SeamAllowanceCm(SeamAllowanceMm(ThongSchema.optionDefaults, numberOf)) == 0.6
    ensures RecordedMm(SeamAllowanceMm(ThongSchema.optionDefaults, numberOf)) == 6.0
  {
  }

  /** Without options the thong is 3 cm wide and there is no allowance. */
  lemma NoOptions(numberOf: string -> Value)
    ensures ThongWidth(map[], numberOf) == Num(3.0)
    ensures SeamAllowanceCm(SeamAllowanceMm(map[], numberOf)) == 0.0
  {
  }

  /** The front outline is closed, and so is its seam-allowance outline. */
  lemma OutlinesClosed(b: Block, sa: real, hypot: (real, real) -> real)
    ensures IsClosed(FrontPath(b).segments)
    ensures IsClosed(OffsetPath(FrontPath(b), Num(sa), hypot).segments)
  {
    var front := FrontPath(b);
    assert front.segments[5].Close?;
  }
}
