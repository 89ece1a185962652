/** `pdfExport` of src/core/export/pdfExport.js: the draft printed at full
    scale on A4 sheets.  The drawing is cut into a grid of tiles, one per
    page, each tile the A4 sheet less its margins; every page draws all
    paths shifted so that its tile falls into the clipped content area,
    adds corner marks for assembly and a "(row,col)" label, and the first
    page adds a 10 mm calibration square.  Real numbers are printed by
    `fmt`, whole numbers by their decimal text. */
module PdfExport {
  import opened Js
  import opened Strings
  import opened Points
  import opened Boxes
  import opened Units
  import opened Paths
  import opened Drafts
  import opened PdfDocument
  import opened RectangleDraft

  const A4WidthMm: real := 210.0
  const A4HeightMm: real := 297.0
  const DefaultMarginMm: real := 10.0
  const MarkLength: real := 12.0

  // ---------------------------------------------------------------------
  // Path operators (lines 14-37)

  /** The PDF path operator a segment becomes. */
  function OpChar(s: Segment): char {
    match s
    case Move(_) => 'm'
    case Line(_, _) => 'l'
    case Curve(_, _, _, _) => 'c'
    case Close => 'h'
  }

  /** Reads an operator back as the SVG command letter of the same kind. */
  function SvgLetterOf(op: char): string {
    if op == 'm' then "M" else if op == 'l' then "L" else if op == 'c' then "C" else if op == 'h' then "Z" else ""
  }

  function Coords(p: Point, scale: real, fmt: real -> string): string {
    fmt(p.x * scale) + " " + fmt(p.y * scale) + " "
  }

  /** One segment in points: its end point (and control points) scaled,
      followed by the operator. */
  function PdfOp(s: Segment, scale: real, fmt: real -> string): (op: string)
    ensures |op| >= 1 && op[|op| - 1] == OpChar(s)
  {
    match s
    case Move(p) => Coords(p, scale, fmt) + "m"
    case Line(_, p) => Coords(p, scale, fmt) + "l"
    case Curve(_, c1, c2, p) => Coords(c1, scale, fmt) + Coords(c2, scale, fmt) + Coords(p, scale, fmt) + "c"
    case Close => "h"
  }

  function PdfOps(segs: seq<Segment>, scale: real, fmt: real -> string): (ops: seq<string>)
    ensures |ops| == |segs|
    ensures forall i :: 0 <= i < |segs| ==> ops[i] == PdfOp(segs[i], scale, fmt)
  {
    seq(|segs|, i requires 0 <= i < |segs| => PdfOp(segs[i], scale, fmt))
  }

  /** `pathToPdf(path, unitScale)`: one operator line per segment, then
      the stroke operator `S`. */
  function PathToPdf(path: Path, scale: real, fmt: real -> string): (r: string)
    ensures EndsWith(r, "S")
    ensures r == "S" <==> |path.segments| == 0
  {
    var ops := PdfOps(path.segments, scale, fmt);
    JoinAppend(ops, "S", "\n");
    if |ops| > 0 then
      ConcatEnds(Join(ops, "\n") + "\n", "S");
      Join(ops + ["S"], "\n")
    else
      Join(ops + ["S"], "\n")
  }

  /** The PDF operators and the SVG commands of a path name the same
      segment kinds in the same order, so both exporters draw the same
      outline. */
  lemma SameOutlineAsSvg(path: Path, scale: real, fmt: real -> string, svgFmt: real -> string, i: nat)
    requires i < |path.segments|
    ensures var op := PdfOps(path.segments, scale, fmt)[i];
      && SvgLetterOf(op[|op| - 1]) == Letter(path.segments[i])
      && StartsWith(SvgCommands(path.segments, svgFmt)[i], SvgLetterOf(op[|op| - 1]))
  {
  }

  /** `Units.toPtFromMm(Units.toMm(1, unit))`: points per drawing unit. */
  function UnitScale(unit: string): (s: real)
    ensures s > 0.0
  {
    ToPtFromMm(ToMm(1.0, Some(unit)))
  }

  /** Scaling coordinates by the points per unit of one unit is converting
      each length to millimetres and then to points. */
  lemma UnitScaleConverts(v: real, unit: string)
    ensures v * UnitScale(unit) == ToPtFromMm(ToMm(v, Some(unit)))
  {
    PointsPerInch(ToMm(1.0, Some(unit)), 0.0, v);
  }

  // ---------------------------------------------------------------------
  // Assembly marks (lines 39-51)

  datatype Mark = Mark(from: Point, to: Point)

  /** The eight marks, in coordinates of the unflipped page, around the
      content rectangle with corners (m, m) and (m + cw, m + ch). */
  function MarkLines(m: real, cw: real, ch: real): (ms: seq<Mark>)
    ensures |ms| == 8
  {
    [ Mark(Point(0.0, m), Point(MarkLength, m)),
      Mark(Point(m, 0.0), Point(m, MarkLength)),
      Mark(Point(cw + m - MarkLength, m), Point(cw + m, m)),
      Mark(Point(cw + m, m), Point(cw + m, MarkLength)),
      Mark(Point(m, ch + m), Point(MarkLength, ch + m)),
      Mark(Point(m, ch + m - MarkLength), Point(m, ch + m)),
      Mark(Point(cw + m - MarkLength, ch + m), Point(cw + m, ch + m)),
      Mark(Point(cw + m, ch + m - MarkLength), Point(cw + m, ch + m)) ]
  }

  function MarkText(mk: Mark, fmt: real -> string): string {
    fmt(mk.from.x) + " " + fmt(mk.from.y) + " m " + fmt(mk.to.x) + " " + fmt(mk.to.y) + " l"
  }

  /** `assemblyMarks({ marginPt, contentWidthPt, contentHeightPt })`. */
  function AssemblyMarks(m: real, cw: real, ch: real, fmt: real -> string): (r: string)
    ensures forall k :: 0 <= k < 8 ==> Contains(r, MarkText(MarkLines(m, cw, ch)[k], fmt))
  {
    var ms := MarkLines(m, cw, ch);
    var texts := seq(8, k requires 0 <= k < 8 => MarkText(ms[k], fmt));
    assert forall k :: 0 <= k < 8 ==> texts[k] == MarkText(ms[k], fmt);
    JoinContainsAll(texts, "\n");
    Join(texts, "\n")
  }

  /** A mark lies on a line through an edge of the content rectangle. */
  predicate OnContentEdge(mk: Mark, m: real, cw: real, ch: real) {
    || (mk.from.y == mk.to.y && (mk.from.y == m || mk.from.y == m + ch))
    || (mk.from.x == mk.to.x && (mk.from.x == m || mk.from.x == m + cw))
  }

  /** Every mark runs along an edge line of the content area, so marks of
      adjacent pages line up; at the corners (m + cw, m), (m, m + ch) and
      (m + cw, m + ch) one horizontal and one vertical mark end, while the
      two marks near (m, m) span the first 12 pt from the sheet's edges. */
  lemma MarksOnContentEdges(m: real, cw: real, ch: real)
    ensures var ms := MarkLines(m, cw, ch);
      && (forall k :: 0 <= k < 8 ==> OnContentEdge(ms[k], m, cw, ch))
      && ms[2].to == Point(m + cw, m) && ms[3].from == Point(m + cw, m)
      && ms[4].from == Point(m, m + ch) && ms[5].to == Point(m, m + ch)
      && ms[6].to == Point(m + cw, m + ch) && ms[7].to == Point(m + cw, m + ch)
      && ms[0].from.x == 0.0 && ms[0].to.x == MarkLength && ms[1].from.y == 0.0 && ms[1].to.y == MarkLength
  {
  }

  // ---------------------------------------------------------------------
  // Calibration square (lines 53-69)

  /** The side of the square: 10 mm in points. */
  function CalibrationSide(): real {
    ToPtFromMm(10.0)
  }

  /** The four edges, starting at the upper left corner (x, y) in the
      page's own y-up coordinates, where the mark is drawn after the
      tile's transformation has been restored. */
  function CalibrationEdges(m: real): (es: seq<Mark>)
    ensures |es| == 4
  {
    var s := CalibrationSide();
    var x := m;
    var y := m + s + 6.0;
    [ Mark(Point(x, y), Point(x + s, y)),
      Mark(Point(x + s, y), Point(x + s, y - s)),
      Mark(Point(x + s, y - s), Point(x, y - s)),
      Mark(Point(x, y - s), Point(x, y)) ]
  }

  function EdgeText(e: Mark, op: string, fmt: real -> string): string {
    fmt(e.from.x) + " " + fmt(e.from.y) + " " + op + " " + fmt(e.to.x) + " " + fmt(e.to.y) + " l"
  }

  /** `calibrationMark({ marginPt })`: the square, stroked, and its
      caption 4 pt above its lower edge. */
  function CalibrationMark(m: real, fmt: real -> string): (r: string)
    ensures StartsWith(r, EdgeText(CalibrationEdges(m)[0], "m", fmt))
    ensures forall k :: 1 <= k < 4 ==> Contains(r, EdgeText(CalibrationEdges(m)[k], "l", fmt))
    ensures Contains(r, "(10mm calibration) Tj")
    ensures EndsWith(r, "ET")
  {
    var es := CalibrationEdges(m);
    var y := m + CalibrationSide() + 6.0;
    var lines := [ EdgeText(es[0], "m", fmt), EdgeText(es[1], "l", fmt), EdgeText(es[2], "l", fmt), EdgeText(es[3], "l", fmt),
                   "S", "BT", "/F1 8 Tf", fmt(m) + " " + fmt(y + 4.0) + " Td", "(10mm calibration) Tj", "ET" ];
    JoinEnds(lines, "\n");
    JoinContainsAll(lines, "\n");
    assert lines[8] == "(10mm calibration) Tj";
    assert lines[1] == EdgeText(es[1], "l", fmt) && lines[2] == EdgeText(es[2], "l", fmt) && lines[3] == EdgeText(es[3], "l", fmt);
    Join(lines, "\n")
  }

  /** A horizontal or vertical stroke of length `len`. */
  predicate AxisParallel(e: Mark, len: real) {
    || (e.from.y == e.to.y && (e.to.x - e.from.x == len || e.from.x - e.to.x == len))
    || (e.from.x == e.to.x && (e.to.y - e.from.y == len || e.from.y - e.to.y == len))
  }

  /** The edges form a closed square whose side measures 10 mm.  In the
      page's y-up coordinates its lower edge lies 6 pt above the bottom
      margin line, so the square sits inside the content area at the lower
      left. */
  lemma CalibrationSquare(m: real)
    ensures var es := CalibrationEdges(m);
      var s := CalibrationSide();
      && (forall k :: 0 <= k < 4 ==> es[k].to == es[(k + 1) % 4].from)
      && (forall k :: 0 <= k < 4 ==> AxisParallel(es[k], s))
      && s / PtPerIn * MmPerIn == 10.0
      && es[0].from.y - s == m + 6.0
  {
    var es := CalibrationEdges(m);
    assert es[3].to == es[0].from;
  }

  // ---------------------------------------------------------------------
  // Tiling (lines 116-123)

  /** `Math.ceil`. */
  function Ceil(x: real): (n: int)
    ensures (n - 1) as real < x <= n as real
  {
    if x == x.Floor as real then x.Floor else x.Floor + 1
  }

  /** `Math.max(1, Math.ceil(length / content))`. */
  function TileCount(length: real, content: real): (n: nat)
    requires content != 0.0
    ensures n >= 1
  {
    var c := Ceil(length / content);
    if c >= 1 then c else 1
  }

  lemma MulLe(a: real, b: real, c: real)
    requires a <= b && c > 0.0
    ensures a * c <= b * c
  {
    if a < b { MulPos(b - a, c); }
  }

  lemma MulLt(a: real, b: real, c: real)
    requires a < b && c > 0.0
    ensures a * c < b * c
  {
    MulPos(b - a, c);
  }

  /** The tiles reach past the length, and one tile fewer would not. */
  lemma TilesCover(length: real, content: real)
    requires content > 0.0 && length >= 0.0
    ensures TileCount(length, content) as real * content >= length
    ensures TileCount(length, content) == 1 || (TileCount(length, content) - 1) as real * content < length
  {
    var q := length / content;
    var n := TileCount(length, content);
    assert q * content == length;
    if Ceil(q) >= 1 {
      assert n == Ceil(q);
      MulLe(q, n as real, content);
      assert n as real * content >= length;
      var prev := (n - 1) as real;
      assert prev < q;
      MulLt(prev, q, content);
      assert prev * content < length;
    } else {
      assert q <= 0.0;
      MulLe(q, 1.0, content);
    }
  }

  // ---------------------------------------------------------------------
  // Placement (lines 137-153)

  /** `marginPt - offsetPtX - minXPt`: the left edge of column `col`,
      `minXPt` plus the columns before it, lands on the left margin. */
  function ShiftX(col: nat, cwMm: real, marginPt: real, minXPt: real): (tx: real)
    ensures minXPt + ToPtFromMm(col as real * cwMm) + tx == marginPt
    ensures col == 0 ==> tx == marginPt - minXPt
  {
    marginPt - ToPtFromMm(col as real * cwMm) - minXPt
  }

  /** `marginPt + offsetPtY + minYPt`, as line 153 writes it: the top edge
      of row `row` lands at the margin plus twice its own offset, not on the
      margin. */
  function ShiftYAsWritten(row: nat, chMm: real, marginPt: real, minYPt: real): (ty: real)
    ensures var top := minYPt + ToPtFromMm(row as real * chMm);
      top + ty == marginPt + 2.0 * top
    ensures row == 0 ==> ty == marginPt + minYPt
  {
    marginPt + ToPtFromMm(row as real * chMm) + minYPt
  }

  /** The vertical shift mirrored on the horizontal one: the tile's top
      edge moves to the top of the content area.  It differs from the shift
      as written by twice the row's top edge. */
  function ShiftY(row: nat, chMm: real, marginPt: real, minYPt: real): (ty: real)
    ensures minYPt + ToPtFromMm(row as real * chMm) + ty == marginPt
    ensures ShiftYAsWritten(row, chMm, marginPt, minYPt) - ty == 2.0 * (minYPt + ToPtFromMm(row as real * chMm))
  {
    marginPt - ToPtFromMm(row as real * chMm) - minYPt
  }

  /** A point, in points, falls into the clip rectangle of line 152 once
      the page's translation is applied. */
  predicate Shown(q: Point, tx: real, ty: real, marginPt: real, cwPt: real, chPt: real) {
    && marginPt <= q.x + tx <= marginPt + cwPt
    && marginPt <= q.y + ty <= marginPt + chPt
  }

  /** One dimension of the tiling: a position within `n` tiles of size
      `c` lies within one of them. */
  lemma TileFor(d: real, c: real, n: nat) returns (k: nat)
    requires c > 0.0 && n >= 1 && 0.0 <= d <= n as real * c
    ensures k < n && k as real * c <= d <= (k + 1) as real * c
  {
    var q := Quotient(d, c);
    var f := q.Floor;
    if f < 0 {
      MulLt(q, 0.0, c);
      assert false;
    }
    if f < n {
      k := f;
      var lo, hi := f as real, f as real + 1.0;
      assert lo <= q < hi;
      MulLe(lo, q, c);
      MulLt(q, hi, c);
      assert q * c < hi * c;
      assert d == q * c;
      assert d < hi * c;
      assert lo * c <= d;
      assert (k + 1) as real == hi && k as real == lo;
    } else {
      k := n - 1;
      var top := n as real;
      assert top <= q;
      MulLe(top, q, c);
      assert top * c <= d <= top * c;
      MulLe(k as real, top, c);
      assert (k + 1) as real == top;
    }
  }

  lemma Quotient(d: real, c: real) returns (q: real)
    requires c > 0.0
    ensures q * c == d
  {
    q := d / c;
  }

  lemma MulNonNeg(a: real, b: real)
    requires 0.0 <= a && 0.0 < b
    ensures 0.0 <= a * b
  {
    if a > 0.0 { MulPos(a, b); }
  }

  /** Along one axis: a coordinate whose distance from the drawing's edge
      lies within tile `k` is inside the content band once the page is
      shifted by that tile's offset. */
  lemma AxisShown(v: real, lo: real, s: real, k: nat, cPt: real, kPt: real, marginPt: real)
    requires kPt == k as real * cPt
    requires k as real * cPt <= (v - lo) * s <= (k + 1) as real * cPt
    ensures marginPt <= v * s + (marginPt - kPt - lo * s) <= marginPt + cPt
  {
    assert (v - lo) * s == v * s - lo * s;
    assert (k + 1) as real * cPt == k as real * cPt + cPt;
  }

  /** `AxisShown` with the shift of tile `k` written in millimetres. */
  lemma TileShifted(v: real, lo: real, s: real, k: nat, cMm: real, marginPt: real)
    requires k as real * ToPtFromMm(cMm) <= (v - lo) * s <= (k + 1) as real * ToPtFromMm(cMm)
    ensures marginPt <= v * s + ShiftX(k, cMm, marginPt, lo * s) <= marginPt + ToPtFromMm(cMm)
  {
    PointsPerInch(cMm, 0.0, k as real);
    AxisShown(v, lo, s, k, ToPtFromMm(cMm), ToPtFromMm(k as real * cMm), marginPt);
  }

  /** Every point of the drawing, with the corrected vertical shift, lies
      in the content area of some page of the grid. */
  lemma EveryPointOnSomePage(b: Box, unit: string, marginMm: real, p: Point)
    requires Ordered(b) && InBox(b, p)
    requires 2.0 * marginMm < A4WidthMm
    ensures exists row: nat, col: nat ::
      row < Rows(b, unit, marginMm) && col < Columns(b, unit, marginMm) && PageShows(b, unit, marginMm, p, row, col)
  {
    var cwMm := A4WidthMm - marginMm * 2.0;
    var chMm := A4HeightMm - marginMm * 2.0;
    var s := UnitScale(unit);
    var marginPt := ToPtFromMm(marginMm);
    var col := TileIndex(p.x, b.minX, b.maxX, unit, cwMm);
    var row := TileIndex(p.y, b.minY, b.maxY, unit, chMm);
    TileShifted(p.x, b.minX, s, col, cwMm, marginPt);
    TileShifted(p.y, b.minY, s, row, chMm, marginPt);
    assert ShiftY(row, chMm, marginPt, b.minY * s) == ShiftX(row, chMm, marginPt, b.minY * s);
    assert PageShows(b, unit, marginMm, p, row, col);
  }

  /** Page (row, col), with the corrected vertical shift, shows point `p`
      of a drawing with bounds `b`. */
  predicate PageShows(b: Box, unit: string, marginMm: real, p: Point, row: nat, col: nat) {
    var s := UnitScale(unit);
    var marginPt := ToPtFromMm(marginMm);
    var cwMm := A4WidthMm - marginMm * 2.0;
    var chMm := A4HeightMm - marginMm * 2.0;
    Shown(Scale(p, s), ShiftX(col, cwMm, marginPt, b.minX * s), ShiftY(row, chMm, marginPt, b.minY * s),
          marginPt, ToPtFromMm(cwMm), ToPtFromMm(chMm))
  }

  /** The tile along one axis that holds coordinate `v` of a drawing
      spanning [lo, hi]. */
  lemma TileIndex(v: real, lo: real, hi: real, unit: string, contentMm: real) returns (k: nat)
    requires lo <= v <= hi && contentMm > 0.0
    ensures k < TileCount(ToMm(hi - lo, Some(unit)), contentMm)
    ensures k as real * ToPtFromMm(contentMm) <= (v - lo) * UnitScale(unit) <= (k + 1) as real * ToPtFromMm(contentMm)
  {
    var lengthMm := ToMm(hi - lo, Some(unit));
    OffsetWithinLength(v, lo, hi, unit);
    LengthWithinTiles(lengthMm, contentMm);
    k := TileFor((v - lo) * UnitScale(unit), ToPtFromMm(contentMm), TileCount(lengthMm, contentMm));
  }

  /** A coordinate's distance from the drawing's edge, in points, is at
      most the drawing's extent converted to points. */
  lemma OffsetWithinLength(v: real, lo: real, hi: real, unit: string)
    requires lo <= v <= hi
    ensures ToMm(hi - lo, Some(unit)) >= 0.0
    ensures 0.0 <= (v - lo) * UnitScale(unit) <= ToPtFromMm(ToMm(hi - lo, Some(unit)))
  {
    var s := UnitScale(unit);
    MulNonNeg(v - lo, s);
    MulLe(v - lo, hi - lo, s);
    UnitScaleConverts(hi - lo, unit);
    MulNonNeg(hi - lo, s);
    Monotone(0.0, 1.0, Some(unit));
  }

  /** The tiles of an axis, in points, reach at least its length. */
  lemma LengthWithinTiles(lengthMm: real, contentMm: real)
    requires lengthMm >= 0.0 && contentMm > 0.0
    ensures ToPtFromMm(contentMm) > 0.0
    ensures ToPtFromMm(lengthMm) <= TileCount(lengthMm, contentMm) as real * ToPtFromMm(contentMm)
  {
    var n := TileCount(lengthMm, contentMm);
    TilesCover(lengthMm, contentMm);
    if lengthMm < n as real * contentMm { PointsPerInch(lengthMm, n as real * contentMm, 1.0); }
    PointsPerInch(contentMm, 0.0, n as real);
    PointsPerInch(0.0, contentMm, 0.0);
  }

  /** Line 153 as written: with the drawing below the x axis' origin
      (`minY >= 0`), a page after the first row shows nothing but points
      on the line y = 0, because its shift moves the drawing down by the
      tile offset instead of up. */
  /** The arithmetic of a later row as written: a shift of one or more
      whole rows plus the non-negative offsets leaves room only for zero. */
  lemma BelowFirstRow(py: real, minY: real, s: real, marginPt: real, ty: real, chPt: real, row: real)
    requires s > 0.0 && py >= 0.0 && minY >= 0.0 && chPt > 0.0 && row >= 1.0
    requires ty == marginPt + row * chPt + minY * s
    requires py * s + ty <= marginPt + chPt
    ensures py == 0.0 && minY == 0.0
  {
    MulLe(1.0, row, chPt);
    MulNonNeg(py, s);
    MulNonNeg(minY, s);
    if py > 0.0 { MulLt(0.0, py, s); }
    if minY > 0.0 { MulLt(0.0, minY, s); }
  }

  lemma AsWrittenLaterRowsEmpty(b: Box, unit: string, marginMm: real, p: Point, row: nat, col: nat)
    requires Ordered(b) && InBox(b, p) && b.minY >= 0.0
    requires 2.0 * marginMm < A4WidthMm && row >= 1
    requires var cwMm := A4WidthMm - marginMm * 2.0;
      var chMm := A4HeightMm - marginMm * 2.0;
      var s := UnitScale(unit);
      var marginPt := ToPtFromMm(marginMm);
      Shown(Scale(p, s), ShiftX(col, cwMm, marginPt, b.minX * s), ShiftYAsWritten(row, chMm, marginPt, b.minY * s),
            marginPt, ToPtFromMm(cwMm), ToPtFromMm(chMm))
    ensures p.y == 0.0 && b.minY == 0.0
  {
    var chMm := A4HeightMm - marginMm * 2.0;
    var s := UnitScale(unit);
    var chPt := ToPtFromMm(chMm);
    var marginPt := ToPtFromMm(marginMm);
    PointsPerInch(chMm, 0.0, row as real);
    var ty := ShiftYAsWritten(row, chMm, marginPt, b.minY * s);
    assert ty == marginPt + row as real * chPt + b.minY * s;
    assert p.y * s + ty <= marginPt + chPt;
    BelowFirstRow(p.y, b.minY, s, marginPt, ty, chPt, row as real);
  }

  /** The 25 cm x 35 cm test rectangle (bounds (0, 0)-(25, 35) in cm) with
      the default 10 mm margin takes 2 x 2 pages; its point (10, 30) is on
      no page as line 153 is written, and on page (2,1) once corrected. */
  lemma AsWrittenDropsPoint()
    ensures var b := Box(0.0, 0.0, 25.0, 35.0);
      var cwMm := A4WidthMm - DefaultMarginMm * 2.0;
      var chMm := A4HeightMm - DefaultMarginMm * 2.0;
      var s := UnitScale("cm");
      var marginPt := ToPtFromMm(DefaultMarginMm);
      var p := Point(10.0, 30.0);
      && TileCount(ToMm(b.maxX - b.minX, Some("cm")), cwMm) == 2
      && TileCount(ToMm(b.maxY - b.minY, Some("cm")), chMm) == 2
      && (forall row: nat, col: nat | row < 2 && col < 2 ::
            !Shown(Scale(p, s), ShiftX(col, cwMm, marginPt, 0.0), ShiftYAsWritten(row, chMm, marginPt, 0.0),
                   marginPt, ToPtFromMm(cwMm), ToPtFromMm(chMm)))
      && Shown(Scale(p, s), ShiftX(0, cwMm, marginPt, 0.0), ShiftY(1, chMm, marginPt, 0.0),
               marginPt, ToPtFromMm(cwMm), ToPtFromMm(chMm))
  {
    assert Ceil(250.0 / 190.0) == 2;
    assert Ceil(350.0 / 277.0) == 2;
  }

  /** The test rectangle drafted 25 cm x 35 cm without seam allowance has
      exactly the bounds `AsWrittenDropsPoint` starts from. */
  lemma TestRectangleBounds()
    ensures var t := SeamTable("panel", RectanglePanel(25.0, 35.0), None);
      Drawable(t) && TableBounds(t) == Some(Box(0.0, 0.0, 25.0, 35.0))
  {
    var t := SeamTable("panel", RectanglePanel(25.0, 35.0), None);
    PanelBounds(25.0, 35.0);
    assert PathBounds(t) == [Some(Box(0.0, 0.0, 25.0, 35.0))];
  }

  // ---------------------------------------------------------------------
  // Pages (lines 134-173)

  /** The per-document quantities every page uses, in points unless the
      name says mm. */
  datatype Job = Job(marginPt: real, cwMm: real, chMm: real, cwPt: real, chPt: real, pageH: real,
                     minXPt: real, minYPt: real, commands: string, marks: string)

  /** `(row,col) Tj`, counted from 1. */
  function PageLabel(row: nat, col: nat): string {
    "(" + (NatStr(row + 1) + ("," + (NatStr(col + 1) + ") Tj")))
  }

  /** The lines of one page's content stream. */
  function StreamLines(row: nat, col: nat, job: Job, fmt: real -> string): (ls: seq<string>)
    ensures |ls| == 19
    ensures ls[3] == "1 0 0 1 " + fmt(ShiftX(col, job.cwMm, job.marginPt, job.minXPt)) + " "
                     + fmt(ShiftY(row, job.chMm, job.marginPt, job.minYPt)) + " cm"
    ensures ls[5] == job.commands && ls[10] == job.marks
    ensures ls[12] == if row == 0 && col == 0 then CalibrationMark(job.marginPt, fmt) else ""
    ensures ls[16] == PageLabel(row, col)
  {
    var m := job.marginPt;
    var tx := ShiftX(col, job.cwMm, m, job.minXPt);
    var ty := ShiftY(row, job.chMm, m, job.minYPt);
    var calibration := if row == 0 && col == 0 then CalibrationMark(m, fmt) else "";
    [ "q",
      "1 0 0 -1 0 " + fmt(job.pageH) + " cm",
      fmt(m) + " " + fmt(m) + " " + fmt(job.cwPt) + " " + fmt(job.chPt) + " re W n",
      "1 0 0 1 " + fmt(tx) + " " + fmt(ty) + " cm",
      "0.5 w",
      job.commands,
      "Q",
      "q",
      "0 0 0 rg",
      "0.5 w",
      job.marks,
      "S",
      calibration,
      "BT",
      "/F1 10 Tf",
      fmt(m) + " " + fmt(job.pageH - m - 12.0) + " Td",
      PageLabel(row, col),
      "ET",
      "Q" ]
  }

  /** The content stream of page (row, col). */
  function PageStream(row: nat, col: nat, job: Job, fmt: real -> string): (stream: string)
    ensures Contains(stream, job.commands) && Contains(stream, job.marks) && Contains(stream, PageLabel(row, col))
    ensures row == 0 && col == 0 ==> Contains(stream, CalibrationMark(job.marginPt, fmt))
  {
    var ls := StreamLines(row, col, job, fmt);
    JoinContainsAll(ls, "\n");
    Join(ls, "\n")
  }

  /** Two pages carry the same label only if they are the same page. */
  lemma LabelsDistinct(r1: nat, c1: nat, r2: nat, c2: nat)
    requires PageLabel(r1, c1) == PageLabel(r2, c2)
    ensures r1 == r2 && c1 == c2
  {
    var a, b := NatStr(r1 + 1), NatStr(c1 + 1);
    var c, d := NatStr(r2 + 1), NatStr(c2 + 1);
    var ra, rc := "," + (b + ") Tj"), "," + (d + ") Tj");
    assert PageLabel(r1, c1)[1..] == a + ra;
    assert PageLabel(r2, c2)[1..] == c + rc;
    DigitsSplit(a, ra, c, rc);
    assert ra[1..] == b + ") Tj" && rc[1..] == d + ") Tj";
    assert b == (b + ") Tj")[..|b|] == (d + ") Tj")[..|d|] == d;
    NatStrInjective(r1 + 1, r2 + 1);
    NatStrInjective(c1 + 1, c2 + 1);
  }

  /** Two runs of digits each followed by a comma split their strings at
      the same place. */
  lemma DigitsSplit(a: string, ra: string, c: string, rc: string)
    requires forall i :: 0 <= i < |a| ==> IsDigit(a[i])
    requires forall i :: 0 <= i < |c| ==> IsDigit(c[i])
    requires |ra| > 0 && ra[0] == ',' && |rc| > 0 && rc[0] == ','
    requires a + ra == c + rc
    ensures a == c && ra == rc
  {
    CommaAfterDigits(a, ra);
    CommaAfterDigits(c, rc);
    assert a == (a + ra)[..|a|] && c == (c + rc)[..|c|];
    assert ra == (a + ra)[|a|..] && rc == (c + rc)[|c|..];
  }

  /** The position of the first `ch` in `s`, or `|s|`. */
  function FirstIndex(s: string, ch: char): (i: nat)
    ensures i <= |s|
  {
    if |s| == 0 then 0 else if s[0] == ch then 0 else 1 + FirstIndex(s[1..], ch)
  }

  /** The first comma after a run of digits ends the run. */
  lemma {:induction false} CommaAfterDigits(a: string, rest: string)
    requires forall i :: 0 <= i < |a| ==> IsDigit(a[i])
    requires |rest| > 0 && rest[0] == ','
    ensures FirstIndex(a + rest, ',') == |a|
    decreases |a|
  {
    if |a| > 0 {
      assert (a + rest)[1..] == a[1..] + rest;
      CommaAfterDigits(a[1..], rest);
    }
  }

  /** Tiles in the order the loops of lines 135-136 visit them. */
  function Grid(rows: nat, cols: nat): (g: seq<(nat, nat)>)
    ensures |g| == rows * cols
    ensures forall k :: 0 <= k < |g| ==> g[k].0 < rows && g[k].1 < cols && k == g[k].0 * cols + g[k].1
    decreases rows
  {
    if rows == 0 then []
    else
      var prev := Grid(rows - 1, cols);
      var g := prev + RowTiles(rows - 1, cols);
      assert |g| == rows * cols by { assert rows * cols == (rows - 1) * cols + cols; }
      g
  }

  /** The first `n` tiles of a row. */
  function RowTiles(row: nat, n: nat): (r: seq<(nat, nat)>)
    ensures |r| == n
    ensures forall c :: 0 <= c < n ==> r[c] == (row, c)
  {
    seq(n, c requires 0 <= c < n => (row, c))
  }

  /** The grid visits every tile. */
  lemma GridCovers(rows: nat, cols: nat, row: nat, col: nat)
    requires row < rows && col < cols
    ensures row * cols + col < |Grid(rows, cols)| && Grid(rows, cols)[row * cols + col] == (row, col)
  {
    var g := Grid(rows, cols);
    assert (row + 1) * cols <= rows * cols by { MulLeNat(row + 1, rows, cols); }
    var k := row * cols + col;
    assert g[k].0 * cols + g[k].1 == row * cols + col;
  }

  lemma MulLeNat(a: nat, b: nat, c: nat)
    requires a <= b
    ensures a * c <= b * c
  {
  }

  /** The stream of each tile, in order. */
  function Streams(tiles: seq<(nat, nat)>, job: Job, fmt: real -> string): (ss: seq<string>)
    ensures |ss| == |tiles|
    ensures forall k :: 0 <= k < |tiles| ==> ss[k] == PageStream(tiles[k].0, tiles[k].1, job, fmt)
  {
    seq(|tiles|, k requires 0 <= k < |tiles| => PageStream(tiles[k].0, tiles[k].1, job, fmt))
  }

  /** Streaming one more tile appends its page. */
  lemma StreamsSnoc(tiles: seq<(nat, nat)>, row: nat, col: nat, job: Job, fmt: real -> string)
    ensures Streams(tiles + [(row, col)], job, fmt) == Streams(tiles, job, fmt) + [PageStream(row, col, job, fmt)]
  {
    var l, r := Streams(tiles + [(row, col)], job, fmt), Streams(tiles, job, fmt) + [PageStream(row, col, job, fmt)];
    assert forall k | 0 <= k < |l| :: l[k] == r[k];
  }

  /** A finished row extends the grid by one row; one more column extends
      the row. */
  lemma GridStep(row: nat, cols: nat, col: nat)
    requires col < cols
    ensures Grid(row, cols) + RowTiles(row, cols) == Grid(row + 1, cols)
    ensures RowTiles(row, col + 1) == RowTiles(row, col) + [(row, col)]
  {
  }

  /** Streaming the next tile of a row appends that tile's page. */
  lemma StreamsRowStep(row: nat, cols: nat, col: nat, job: Job, fmt: real -> string)
    requires col < cols
    ensures Streams(Grid(row, cols) + RowTiles(row, col + 1), job, fmt)
         == Streams(Grid(row, cols) + RowTiles(row, col), job, fmt) + [PageStream(row, col, job, fmt)]
  {
    GridStep(row, cols, col);
    assert Grid(row, cols) + RowTiles(row, col + 1) == (Grid(row, cols) + RowTiles(row, col)) + [(row, col)];
    StreamsSnoc(Grid(row, cols) + RowTiles(row, col), row, col, job, fmt);
  }

  /** A finished row takes the streams on to the next row of the grid. */
  lemma StreamsRowDone(row: nat, cols: nat, job: Job, fmt: real -> string)
    ensures Streams(Grid(row + 1, cols), job, fmt) == Streams(Grid(row, cols) + RowTiles(row, cols), job, fmt)
  {
  }

  /** Lines 134-173: the page streams, row by row. */
  method PageStreams(rows: nat, cols: nat, job: Job, fmt: real -> string) returns (pages: seq<string>)
    ensures pages == Streams(Grid(rows, cols), job, fmt)
    ensures |pages| == rows * cols
  {
    pages := [];
    var row := 0;
    while row < rows
      invariant 0 <= row <= rows
      invariant pages == Streams(Grid(row, cols), job, fmt)
    {
      var col := 0;
      while col < cols
        invariant 0 <= col <= cols
        invariant pages == Streams(Grid(row, cols) + RowTiles(row, col), job, fmt)
      {
        StreamsRowStep(row, cols, col, job, fmt);
        pages := pages + [PageStream(row, col, job, fmt)];
        col := col + 1;
      }
      StreamsRowDone(row, cols, job, fmt);
      row := row + 1;
    }
  }

  // ---------------------------------------------------------------------
  // The export (lines 111-178)

  /** `options.marginMm ?? 10`. */
  function MarginMm(marginOption: Option<real>): real {
    marginOption.GetOr(DefaultMarginMm)
  }

  /** The content area is not degenerate: neither content dimension is
      zero, so the tile counts are finite. */
  predicate Printable(marginMm: real) {
    A4WidthMm - marginMm * 2.0 != 0.0 && A4HeightMm - marginMm * 2.0 != 0.0
  }

  function Columns(b: Box, unit: string, marginMm: real): nat
    requires Printable(marginMm)
  {
    TileCount(ToMm(b.maxX - b.minX, Some(unit)), A4WidthMm - marginMm * 2.0)
  }

  function Rows(b: Box, unit: string, marginMm: real): nat
    requires Printable(marginMm)
  {
    TileCount(ToMm(b.maxY - b.minY, Some(unit)), A4HeightMm - marginMm * 2.0)
  }

  /** Every path of the table as operators, joined by newlines (line 145). */
  function Commands(t: PathTable, scale: real, fmt: real -> string): (r: string)
    ensures forall i :: 0 <= i < |t| ==> Contains(r, PathToPdf(t[i].1, scale, fmt))
  {
    var cs := seq(|t|, i requires 0 <= i < |t| => PathToPdf(t[i].1, scale, fmt));
    assert forall i :: 0 <= i < |t| ==> cs[i] == PathToPdf(t[i].1, scale, fmt);
    JoinContainsAll(cs, "\n");
    Join(cs, "\n")
  }

  /** The page-independent quantities of lines 112-146. */
  function MakeJob(t: PathTable, b: Box, unit: string, marginMm: real, fmt: real -> string): Job {
    var s := UnitScale(unit);
    var cwMm := A4WidthMm - marginMm * 2.0;
    var chMm := A4HeightMm - marginMm * 2.0;
    var marginPt := ToPtFromMm(marginMm);
    Job(marginPt, cwMm, chMm, ToPtFromMm(cwMm), ToPtFromMm(chMm), ToPtFromMm(A4HeightMm), b.minX * s, b.minY * s,
        Commands(t, s, fmt), AssemblyMarks(marginPt, ToPtFromMm(cwMm), ToPtFromMm(chMm), fmt))
  }

  /** `pdfExport(draft, options)`: the PDF text and the page count.  The
      draft's paths must be present, flattenable and non-empty, as for the
      SVG export. */
  method Export(draft: Draft, marginOption: Option<real>, fmt: real -> string) returns (pdf: string, pageCount: nat)
    requires draft.paths.Some? && Drawable(draft.paths.value) && TableBounds(draft.paths.value).Some?
    requires Printable(MarginMm(marginOption))
    ensures var b := TableBounds(draft.paths.value).value;
      var unit := UnitOrCm(draft.meta);
      var marginMm := MarginMm(marginOption);
      var job := MakeJob(draft.paths.value, b, unit, marginMm, fmt);
      && pageCount == Columns(b, unit, marginMm) * Rows(b, unit, marginMm)
      && pageCount >= 1
      && pdf == Document(Streams(Grid(Rows(b, unit, marginMm), Columns(b, unit, marginMm)), job, fmt),
                         fmt(ToPtFromMm(A4WidthMm)), fmt(ToPtFromMm(A4HeightMm)))
  {
    var t := draft.paths.value;
    var b := TableBounds(t).value;
    var unit := UnitOrCm(draft.meta);
    var marginMm := MarginMm(marginOption);
    var cols := Columns(b, unit, marginMm);
    var rows := Rows(b, unit, marginMm);
    var job := MakeJob(t, b, unit, marginMm, fmt);
    var pages := PageStreams(rows, cols, job, fmt);
    var offsets;
    pdf, offsets := BuildPdf(pages, fmt(ToPtFromMm(A4WidthMm)), fmt(ToPtFromMm(A4HeightMm)));
    pageCount := |pages|;
    MulLeNat(1, rows, cols);
  }
}
