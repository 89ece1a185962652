/** `draftPanties` of src/patterns/panties_basic/draft.js: the front block
    of a basic brief, from four body measurements and a seam-allowance
    switch. */
module PantiesDraft {
  import opened Js
  import opened Points
  import opened Paths
  import opened Offset
  import opened Annotations
  import opened Drafts
  import opened Panels
  import opened MathUtil
  import opened PatternSchemas

  const ModuleId: string := "panties_basic"

  /** The derived widths of the block, in cm. */
  datatype Block = Block(waistWidth: real, hipWidth: real, rise: real, crotchWidth: real, legCurveDepth: real)

  /** Lines 16-20: quarter waist and hip plus ease; the crotch width and the
      depth of the leg curve are clamped. */
  function PantiesBlock(waist: real, hip: real, rise: real, legOpening: real): (b: Block)
    ensures 5.0 <= b.crotchWidth <= 9.0
    ensures 6.0 <= b.legCurveDepth <= 12.0
    ensures 40.0 <= legOpening <= 72.0 ==> b.crotchWidth == legOpening / 8.0
    ensures b.waistWidth * 4.0 == waist + 8.0 && b.hipWidth * 4.0 == hip + 12.0
    ensures b.rise == rise
  {
    var hipWidth := hip / 4.0 + 3.0;
    Block(waist / 4.0 + 2.0, hipWidth, rise, Clamp(legOpening / 8.0, 5.0, 9.0), Clamp(hipWidth * 0.35, 6.0, 12.0))
  }

  /** The front outline: waist line, side curve to the hip, leg curve to
      the crotch, crotch line back to the centre front, closed. */
  function FrontPath(b: Block): (p: Path)
    ensures |p.segments| == 6
    ensures p.segments[0] == Move(Point(0.0, 0.0))
    ensures p.segments[1] == Line(Some(Point(0.0, 0.0)), Point(b.waistWidth, 0.0))
    ensures p.segments[2] == Curve(Some(Point(b.waistWidth, 0.0)), Point(b.waistWidth + 1.0, b.rise * 0.3),
                                   Point(b.hipWidth, b.rise * 0.6), Point(b.hipWidth, b.rise))
    ensures p.segments[3] == Curve(Some(Point(b.hipWidth, b.rise)), Point(b.hipWidth, b.rise + b.legCurveDepth),
                                   Point(b.crotchWidth, b.rise + b.legCurveDepth), Point(b.crotchWidth, b.rise))
    ensures p.segments[4] == Line(Some(Point(b.crotchWidth, b.rise)), Point(0.0, b.rise))
    ensures p.segments[5] == Close
    ensures Tracked(p) && Anchored(p.segments)
  {
    var p0 := MoveTo(NewPath(), 0.0, 0.0);
    assert p0.segments == [Move(Point(0.0, 0.0))];
    var p1 := LineTo(p0, b.waistWidth, 0.0);
    assert p1.segments == p0.segments + [Line(Some(Point(0.0, 0.0)), Point(b.waistWidth, 0.0))];
    var p2 := CurveTo(p1, b.waistWidth + 1.0, b.rise * 0.3, b.hipWidth, b.rise * 0.6, b.hipWidth, b.rise);
    var p3 := CurveTo(p2, b.hipWidth, b.rise + b.legCurveDepth, b.crotchWidth, b.rise + b.legCurveDepth, b.crotchWidth, b.rise);
    var p4 := LineTo(p3, 0.0, b.rise);
    ClosePath(p4)
  }

  /** Line 32: only the string "on" switches the 0.8 cm allowance on. */
  function SeamAllowance(options: map<string, Value>): (sa: real)
    ensures sa == 0.0 || sa == 0.8
    ensures sa > 0.0 <==> Lookup(options, "seamAllowance") == Str("on")
  {
    if Lookup(options, "seamAllowance") == Str("on") then 0.8 else 0.0
  }

  function FrontAnnotations(b: Block): (r: seq<Annotation>)
    ensures |r| == 3 && r[0].Grainline? && r[1].Notch? && r[2].Label?
    ensures r[0].start.x == r[0].end.x == r[1].point.x
    ensures r[1].point.y == b.rise
  {
    [ MakeGrainline(Point(b.hipWidth * 0.5, 2.0), Point(b.hipWidth * 0.5, b.rise - 2.0)),
      MakeNotch(Point(b.hipWidth * 0.5, b.rise), None),
      MakeLabel(Point(b.hipWidth * 0.2, b.rise * 0.5), Plain("Front")) ]
  }

  /** `draftPanties(measurements, options)`. */
  function DraftPanties(measurements: map<string, Value>, options: map<string, Value>, hypot: (real, real) -> real): (r: Result<Draft>)
    ensures var w, h, rs, l := Lookup(measurements, "waist"), Lookup(measurements, "hip"), Lookup(measurements, "rise"), Lookup(measurements, "legOpening");
      (r.Throws? <==> !(w.Num? && h.Num? && rs.Num? && l.Num?))
      && (r.Throws? ==> r.message == InvalidMeasurements)
      && (r.Ok? ==>
        var front := FrontPath(PantiesBlock(w.r, h.r, rs.r, l.r));
        var sa := SeamAllowance(options);
        var d := r.value;
        && d.panels.None?
        && d.paths == Some(SeamTable("front", front, if sa > 0.0 then Some(OffsetPath(front, Num(sa), hypot)) else None))
        && d.annotations == Some(FrontAnnotations(PantiesBlock(w.r, h.r, rs.r, l.r)))
        && d.meta.Some?
        && d.meta.value.unit == Some("cm")
        && d.meta.value.title == Some(Plain("Panties Basic"))
        && d.meta.value.moduleId == ModuleId
        && (d.meta.value.seamAllowanceApplied <==> sa > 0.0))
  {
    var waist := Lookup(measurements, "waist");
    var hip := Lookup(measurements, "hip");
    var rise := Lookup(measurements, "rise");
    var legOpening := Lookup(measurements, "legOpening");
    if !(waist.Num? && hip.Num? && rise.Num? && legOpening.Num?) then Throws(InvalidMeasurements)
    else
      var b := PantiesBlock(waist.r, hip.r, rise.r, legOpening.r);
      var front := FrontPath(b);
      var sa := SeamAllowance(options);
      var seamPath := if sa > 0.0 then Some(OffsetPath(front, Num(sa), hypot)) else None;
      Ok(Draft(
        None,
        Some(SeamTable("front", front, seamPath)),
        Some(FrontAnnotations(b)),
        Some(Meta(Some("cm"), Some(Plain("Panties Basic")), ModuleId, "0.1.0", sa > 0.0, None))))
  }

  /** The schema and the draft's meta name the same module. */
  lemma ModuleIdAgrees(measurements: map<string, Value>, options: map<string, Value>, hypot: (real, real) -> real)
    ensures PantiesSchema.id == ModuleId
    ensures DraftPanties(measurements, options, hypot).Ok? ==>
      DraftPanties(measurements, options, hypot).value.meta.value.moduleId == PantiesSchema.id
  {
  }

  /** `hasSeamPaths` on the draft agrees with the seam-allowance switch. */
  lemma SeamPathIffOn(measurements: map<string, Value>, options: map<string, Value>, hypot: (real, real) -> real)
    requires DraftPanties(measurements, options, hypot).Ok?
    ensures HasSeamPaths(CollectPaths(Some(DraftPanties(measurements, options, hypot).value)))
      <==> Lookup(options, "seamAllowance") == Str("on")
  {
    var d := DraftPanties(measurements, options, hypot).value;
    var b := PantiesBlock(Lookup(measurements, "waist").r, Lookup(measurements, "hip").r,
                          Lookup(measurements, "rise").r, Lookup(measurements, "legOpening").r);
    var front := FrontPath(b);
    var sa := SeamAllowance(options);
    DraftNamesPlain();
    LooseSeamTable(d, "front", front, if sa > 0.0 then Some(OffsetPath(front, Num(sa), hypot)) else None);
  }

  /** The schema's default options leave the allowance off, and a numeric
      allowance such as 6 is not "on" either. */
  lemma OnlyTheStringOnApplies()
    ensures SeamAllowance(PantiesSchema.optionDefaults) == 0.0
    ensures SeamAllowance(map["seamAllowance" := Num(6.0)]) == 0.0
  {
  }

  /** The front outline is closed, and so is its seam-allowance outline. */
  lemma OutlinesClosed(b: Block, sa: real, hypot: (real, real) -> real)
    ensures IsClosed(FrontPath(b).segments)
    ensures IsClosed(OffsetPath(FrontPath(b), Num(sa), hypot).segments)
  {
    var front := FrontPath(b);
    assert front.segments[5].Close?;
  }
}
