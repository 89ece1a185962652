/** `svgExport` of src/core/export/svgExport.js: one SVG document holding
    every path of a draft, its annotations, a 50 mm calibration mark and an
    information block, framed by a viewBox 2 units larger than the merged
    bounds on every side.  Numbers inside the markup are printed by `fmt`. */
module SvgExport {
  import opened Js
  import opened Strings
  import opened Points
  import opened Boxes
  import opened Units
  import opened Paths
  import opened Annotations
  import opened Drafts

  const Padding: real := 2.0
  const CalibrationMm: real := 50.0
  const XmlDecl: string := "<?xml version=\"1.0\" encoding=\"UTF-8\"?>"

  /** The viewBox rectangle. */
  datatype Frame = Frame(x: real, y: real, width: real, height: real)

  /** Lines 31-34: the merged bounds grown by the padding on every side. */
  function ViewFrame(b: Box): (f: Frame)
    ensures f.x + Padding == b.minX && f.y + Padding == b.minY
    ensures f.x + f.width == b.maxX + Padding && f.y + f.height == b.maxY + Padding
    ensures Ordered(b) ==> f.width >= 2.0 * Padding && f.height >= 2.0 * Padding
  {
    Frame(b.minX - Padding, b.minY - Padding, b.maxX - b.minX + Padding * 2.0, b.maxY - b.minY + Padding * 2.0)
  }

  // ---------------------------------------------------------------------
  // Annotations (lines 11-26)

  /** One annotation's markup, chosen by its type. */
  function RenderAnnotation(a: Annotation, fmt: real -> string): (r: string)
    ensures a.Grainline? ==> StartsWith(r, "<line ") && EndsWith(r, "marker-end=\"url(#arrow)\" />")
    ensures a.Notch? ==> StartsWith(r, "<circle ") && EndsWith(r, "r=\"0.2\" fill=\"#333\" />")
    ensures a.Label? ==> StartsWith(r, "<text ") && EndsWith(r, ">" + TextString(a.text) + "</text>")
    ensures r == "" <==> a.Unknown?
  {
    match a
    case Grainline(start, end) =>
      var mid := "x1=\"" + fmt(start.x) + "\" y1=\"" + fmt(start.y) + "\" x2=\"" + fmt(end.x) + "\" y2=\"" + fmt(end.y)
        + "\" stroke=\"#333\" stroke-width=\"0.2\" ";
      Bracketed("<line ", mid, "marker-end=\"url(#arrow)\" />");
      "<line " + mid + "marker-end=\"url(#arrow)\" />"
    case Notch(point, _) =>
      var mid := "cx=\"" + fmt(point.x) + "\" cy=\"" + fmt(point.y) + "\" ";
      Bracketed("<circle ", mid, "r=\"0.2\" fill=\"#333\" />");
      "<circle " + mid + "r=\"0.2\" fill=\"#333\" />"
    case Label(point, text) =>
      var mid := "x=\"" + fmt(point.x) + "\" y=\"" + fmt(point.y) + "\" font-size=\"2\" fill=\"#333\"";
      Bracketed("<text ", mid, ">" + TextString(text) + "</text>");
      "<text " + mid + (">" + TextString(text) + "</text>")
    case Unknown(_) => ""
  }

  /** The markup of each annotation, in order. */
  function AnnotationMarkups(annotations: seq<Annotation>, fmt: real -> string): (ms: seq<string>)
    ensures |ms| == |annotations|
    ensures forall i :: 0 <= i < |annotations| ==> ms[i] == RenderAnnotation(annotations[i], fmt)
  {
    seq(|annotations|, i requires 0 <= i < |annotations| => RenderAnnotation(annotations[i], fmt))
  }

  /** `renderAnnotations(annotations = [])`: the markups joined by newlines. */
  function RenderAnnotations(annotations: Option<seq<Annotation>>, fmt: real -> string): (r: string)
    ensures annotations.None? ==> r == ""
  {
    Join(AnnotationMarkups(annotations.GetOr([]), fmt), "\n")
  }

  /** Each annotation's markup appears in the rendered block, in list order:
      one more annotation appends a newline and its markup. */
  lemma AnnotationsRendered(annotations: seq<Annotation>, a: Annotation, fmt: real -> string, i: nat)
    requires i < |annotations|
    ensures Contains(RenderAnnotations(Some(annotations), fmt), RenderAnnotation(annotations[i], fmt))
    ensures RenderAnnotations(Some(annotations + [a]), fmt)
         == RenderAnnotations(Some(annotations), fmt) + "\n" + RenderAnnotation(a, fmt)
  {
    var ms := AnnotationMarkups(annotations, fmt);
    JoinContains(ms, "\n", i);
    assert AnnotationMarkups(annotations + [a], fmt) == ms + [RenderAnnotation(a, fmt)];
    JoinAppend(ms, RenderAnnotation(a, fmt), "\n");
  }

  // ---------------------------------------------------------------------
  // Paths (lines 45-47)

  /** The `<path>` element of one named path. */
  function PathElement(name: string, path: Path, fmt: real -> string): (r: string)
    ensures StartsWith(r, "<path d=\"" + ToSvgPath(path, fmt) + "\"")
    ensures EndsWith(r, "data-name=\"" + name + "\" />")
  {
    var head := "<path d=\"" + ToSvgPath(path, fmt) + "\"";
    var tail := "data-name=\"" + name + "\" />";
    var r := head + " fill=\"none\" stroke=\"#000\" stroke-width=\"0.2\" " + tail;
    assert r[..|head|] == head;
    assert r[|r| - |tail|..] == tail;
    r
  }

  /** One element per entry of `draft.paths`, in key order. */
  function PathElements(t: PathTable, fmt: real -> string): (es: seq<string>)
    ensures |es| == |t|
    ensures forall i :: 0 <= i < |t| ==> es[i] == PathElement(t[i].0, t[i].1, fmt)
  {
    seq(|t|, i requires 0 <= i < |t| => PathElement(t[i].0, t[i].1, fmt))
  }

  function PathMarkup(t: PathTable, fmt: real -> string): string {
    Join(PathElements(t, fmt), "\n")
  }

  // ---------------------------------------------------------------------
  // Meta data (lines 36-41)

  function Applied(meta: Option<Meta>): bool {
    meta.Some? && meta.value.seamAllowanceApplied
  }

  function Title(meta: Option<Meta>): string {
    TextOr(if meta.None? then None else meta.value.title, "Pattern")
  }

  /** The information line: "on" exactly when the allowance was applied. */
  function ScaleInfo(unit: string, applied: bool): (s: string)
    ensures StartsWith(s, "Units: " + unit + " | ")
    ensures EndsWith(s, ": on") <==> applied
    ensures EndsWith(s, ": off") <==> !applied
  {
    var head := "Units: " + unit + " | ";
    var tail := if applied then ": on" else ": off";
    Bracketed(head, "Seam allowance", tail);
    var s := head + "Seam allowance" + tail;
    assert s[|s| - 1] == (if applied then 'n' else 'f');
    assert s[|s| - 2] == 'o' || s[|s| - 2] == 'f';
    s
  }

  /** Line 39: the leg of the calibration mark, in drawing units. */
  function CalibrationSize(meta: Option<Meta>): (cs: real)
    ensures ToMm(cs, Some(UnitOrCm(meta))) == CalibrationMm
  {
    RoundTrip(CalibrationMm, Some(UnitOrCm(meta)));
    FromMm(CalibrationMm, Some(UnitOrCm(meta)))
  }

  // ---------------------------------------------------------------------
  // The document (lines 49-68)

  function ViewBoxAttr(f: Frame, fmt: real -> string): string {
    "viewBox=\"" + fmt(f.x) + " " + fmt(f.y) + " " + fmt(f.width) + " " + fmt(f.height) + "\""
  }

  /** The root's physical size: the viewBox size converted to mm. */
  function SizeAttrs(f: Frame, unit: Option<string>, fmt: real -> string): string {
    "width=\"" + fmt(ToMm(f.width, unit)) + "mm\" height=\"" + fmt(ToMm(f.height, unit)) + "mm\""
  }

  const Defs: string :=
    "<defs>\n    <marker id=\"arrow\" markerWidth=\"4\" markerHeight=\"4\" refX=\"2\" refY=\"2\" orient=\"auto\" markerUnits=\"strokeWidth\">\n"
    + "      <path d=\"M0,0 L4,2 L0,4 z\" fill=\"#333\" />\n    </marker>\n  </defs>"

  function Background(f: Frame, fmt: real -> string): string {
    "<rect x=\"" + fmt(f.x) + "\" y=\"" + fmt(f.y) + "\" width=\"" + fmt(f.width) + "\" height=\"" + fmt(f.height) + "\" fill=\"white\" />"
  }

  /** Two legs of length `cs` meeting at a right angle, from (x, y) right
      to (x + cs, y) and up to (x + cs, y - cs), and the "50mm" caption. */
  function CalibrationGroup(x: real, y: real, cs: real, fmt: real -> string): string {
    "<g id=\"calibration-50mm\" stroke=\"#d11\" stroke-width=\"0.4\" fill=\"none\">\n"
    + "    <line x1=\"" + fmt(x) + "\" y1=\"" + fmt(y) + "\" x2=\"" + fmt(x + cs) + "\" y2=\"" + fmt(y) + "\" />\n"
    + "    <line x1=\"" + fmt(x + cs) + "\" y1=\"" + fmt(y) + "\" x2=\"" + fmt(x + cs) + "\" y2=\"" + fmt(y - cs) + "\" />\n"
    + "    <text x=\"" + fmt(x) + "\" y=\"" + fmt(y + 1.2) + "\" font-size=\"1.8\" fill=\"#d11\">50mm</text>\n  </g>"
  }

  function CornerMark(b: Box, fmt: real -> string): string {
    "<rect x=\"" + fmt(b.minX + 1.0) + "\" y=\"" + fmt(b.minY + 1.0)
    + "\" width=\"1\" height=\"1\" fill=\"none\" stroke=\"#555\" stroke-width=\"0.1\" />"
  }

  /** The end of the root's opening tag, the marker definitions and the
      white background. */
  function Preamble(f: Frame, fmt: real -> string): string {
    ">\n  " + Defs + "\n  " + Background(f, fmt) + "\n  "
  }

  function CornerLine(b: Box, fmt: real -> string): string {
    "\n  " + CornerMark(b, fmt) + "\n  "
  }

  function InfoText(x: real, y: real, size: string, color: string, body: string, fmt: real -> string): string {
    "<text x=\"" + fmt(x) + "\" y=\"" + fmt(y) + "\" font-size=\"" + size + "\" fill=\"" + color + "\">" + body + "</text>"
  }

  /** An information line `dy` units above the bottom of the viewBox, two
      units in from the left edge of the bounds. */
  function InfoLine(b: Box, dy: real, size: string, color: string, body: string, fmt: real -> string): string {
    InfoText(b.minX + 2.0, b.minY + ViewFrame(b).height - dy, size, color, body, fmt)
  }

  /** The calibration mark, its corner two units in from the top-left of
      the bounds and one leg length down. */
  function CalibrationAt(b: Box, cs: real, fmt: real -> string): string {
    CalibrationGroup(b.minX + 2.0, b.minY + 2.0 + cs, cs, fmt)
  }

  /** The opening of every document: the XML declaration and the start of
      the root element. */
  const SvgOpen: string := XmlDecl + "\n<svg xmlns=\"http://www.w3.org/2000/svg\" "

  /** The pieces of the document template, in order; `Export` joins them.
      Every computed piece is a parameter: the root's `viewBox` and size
      attributes, the preamble (markers and background), the rendered
      paths and annotations, the calibration mark, the corner mark and the
      three information lines. */
  function Parts(viewBox: string, size: string, preamble: string, paths: string, annotations: string,
                 calibration: string, corner: string, title: string, scale: string, summary: string)
    : (ps: seq<string>)
    ensures |ps| == 17
    ensures && ps[0] == SvgOpen && ps[16] == "\n</svg>"
            && ps[1] == viewBox && ps[3] == size && ps[4] == preamble
            && ps[5] == paths && ps[7] == annotations
            && ps[9] == calibration && ps[10] == corner
            && ps[11] == title && ps[13] == scale && ps[15] == summary
  {
    [ SvgOpen, viewBox, " ", size, preamble, paths, "\n  ", annotations, "\n  ",
      calibration, corner, title, "\n  ", scale, "\n  ", summary, "\n</svg>" ]
  }

  /** `svgExport(draft, measurementsSummary)`.  The draft must have paths
      that can be flattened and at least one point among them (otherwise
      the source throws or prints non-finite numbers). */
  function Export(draft: Draft, summary: seq<string>, fmt: real -> string): (doc: string)
    requires draft.paths.Some? && Drawable(draft.paths.value) && TableBounds(draft.paths.value).Some?
    ensures var t := draft.paths.value;
      var b := TableBounds(t).value;
      var f := ViewFrame(b);
      var cs := CalibrationSize(draft.meta);
      && StartsWith(doc, SvgOpen)
      && EndsWith(doc, "\n</svg>")
      && Contains(doc, ViewBoxAttr(f, fmt))
      && Contains(doc, SizeAttrs(f, UnitArg(draft.meta), fmt))
      && Contains(doc, PathMarkup(t, fmt))
      && Contains(doc, RenderAnnotations(draft.annotations, fmt))
      && Contains(doc, CalibrationAt(b, cs, fmt))
      && Contains(doc, InfoLine(b, 1.0, "2", "#333", Title(draft.meta), fmt))
      && Contains(doc, InfoLine(b, 3.0, "1.6", "#555", ScaleInfo(UnitOrCm(draft.meta), Applied(draft.meta)), fmt))
      && Contains(doc, InfoLine(b, 5.0, "1.6", "#555", Join(summary, ", "), fmt))
  {
    var t := draft.paths.value;
    var b := TableBounds(t).value;
    var f := ViewFrame(b);
    var cs := CalibrationSize(draft.meta);
    var ps := Parts(ViewBoxAttr(f, fmt), SizeAttrs(f, UnitArg(draft.meta), fmt), Preamble(f, fmt),
                    PathMarkup(t, fmt), RenderAnnotations(draft.annotations, fmt),
                    CalibrationAt(b, cs, fmt), CornerLine(b, fmt),
                    InfoLine(b, 1.0, "2", "#333", Title(draft.meta), fmt),
                    InfoLine(b, 3.0, "1.6", "#555",
                             ScaleInfo(UnitOrCm(draft.meta), Applied(draft.meta)), fmt),
                    InfoLine(b, 5.0, "1.6", "#555", Join(summary, ", "), fmt));
    PartsJoined(ViewBoxAttr(f, fmt), SizeAttrs(f, UnitArg(draft.meta), fmt), Preamble(f, fmt),
                PathMarkup(t, fmt), RenderAnnotations(draft.annotations, fmt),
                CalibrationAt(b, cs, fmt), CornerLine(b, fmt),
                InfoLine(b, 1.0, "2", "#333", Title(draft.meta), fmt),
                InfoLine(b, 3.0, "1.6", "#555",
                         ScaleInfo(UnitOrCm(draft.meta), Applied(draft.meta)), fmt),
                InfoLine(b, 5.0, "1.6", "#555", Join(summary, ", "), fmt));
    Join(ps, "")
  }

  /** The joined template starts with the XML declaration, ends by closing
      the root and contains each of its computed pieces. */
  lemma PartsJoined(viewBox: string, size: string, preamble: string, paths: string, annotations: string,
                    calibration: string, corner: string, title: string, scale: string, summary: string)
    ensures var doc := Join(Parts(viewBox, size, preamble, paths, annotations, calibration, corner, title, scale, summary), "");
      && StartsWith(doc, SvgOpen) && EndsWith(doc, "\n</svg>")
      && Contains(doc, viewBox) && Contains(doc, size) && Contains(doc, paths) && Contains(doc, annotations)
      && Contains(doc, calibration) && Contains(doc, title) && Contains(doc, scale) && Contains(doc, summary)
  {
    var ps := Parts(viewBox, size, preamble, paths, annotations, calibration, corner, title, scale, summary);
    JoinEnds(ps, "");
    JoinContainsAll(ps, "");
  }

  // ---------------------------------------------------------------------
  // Properties

  /** Every vertex of every path lies inside the viewBox, at least the
      padding away from each edge. */
  lemma VertexInsideViewBox(t: PathTable, i: nat, j: nat)
    requires Drawable(t) && i < |t| && j < |t[i].1.segments| && !t[i].1.segments[j].Close?
    ensures TableBounds(t).Some?
    ensures var f := ViewFrame(TableBounds(t).value);
      var v := t[i].1.segments[j].to;
      && f.x + Padding <= v.x <= f.x + f.width - Padding
      && f.y + Padding <= v.y <= f.y + f.height - Padding
  {
    VertexInTableBounds(t, i, j);
  }

  /** Each path is drawn in the document by a `<path>` element whose
      `data-name` is its key. */
  lemma EveryPathDrawn(draft: Draft, summary: seq<string>, fmt: real -> string, i: nat)
    requires draft.paths.Some? && Drawable(draft.paths.value) && TableBounds(draft.paths.value).Some?
    requires i < |draft.paths.value|
    ensures var e := PathElement(draft.paths.value[i].0, draft.paths.value[i].1, fmt);
      Contains(Export(draft, summary, fmt), e) && EndsWith(e, "data-name=\"" + draft.paths.value[i].0 + "\" />")
  {
    var t := draft.paths.value;
    JoinContains(PathElements(t, fmt), "\n", i);
    ContainsTrans(Export(draft, summary, fmt), PathMarkup(t, fmt), PathElement(t[i].0, t[i].1, fmt));
  }

  /** Each annotation's markup appears in the document. */
  lemma EveryAnnotationDrawn(draft: Draft, summary: seq<string>, fmt: real -> string, i: nat)
    requires draft.paths.Some? && Drawable(draft.paths.value) && TableBounds(draft.paths.value).Some?
    requires draft.annotations.Some? && i < |draft.annotations.value|
    ensures Contains(Export(draft, summary, fmt), RenderAnnotation(draft.annotations.value[i], fmt))
  {
    var annotations := draft.annotations.value;
    AnnotationsRendered(annotations, annotations[i], fmt, i);
    ContainsTrans(Export(draft, summary, fmt), RenderAnnotations(draft.annotations, fmt), RenderAnnotation(annotations[i], fmt));
  }

  /** The root's width and height attributes scale the viewBox by the
      unit's millimetres per unit, so a calibration leg of `cs` units is
      printed 50 mm long whenever `meta.unit` is absent or not empty (the
      draft functions all give "cm").  An empty unit makes `toMm` pass
      values through while the leg is still sized for cm: 5 mm. */
  lemma CalibrationPrintsFiftyMm(meta: Option<Meta>, f: Frame)
    ensures ToMm(f.width, UnitArg(meta)) == f.width * MmPerUnit(UnitArg(meta))
    ensures UnitArg(meta) != Some("") ==> CalibrationSize(meta) * MmPerUnit(UnitArg(meta)) == CalibrationMm
    ensures UnitArg(meta) == Some("") ==> CalibrationSize(meta) * MmPerUnit(UnitArg(meta)) == 5.0
  {
    var cs := CalibrationSize(meta);
    assert cs * MmPerUnit(Some(UnitOrCm(meta))) == CalibrationMm;
    if UnitArg(meta).None? {
      assert MmPerUnit(None) == MmPerUnit(Some("cm"));
    }
  }
}
