# Lingerie pattern kernel in Dafny

This project models the drafting core of a browser application for lingerie
sewing patterns. A pattern module owns three things:

- a schema of measurement fields with bounds and defaults;
- a set of options;
- a draft function that turns measurements into closed outlines (paths), an
  optional seam-allowance outline, annotations and metadata.

The model covers:

- the geometry those drafts are built from: points, cubic Béziers, the
  `Path` builder, unit conversion and the seam-allowance offset engine;
- panel and path collection;
- the two exporters: an SVG document, and a tiled A4 PDF with a hand-built
  object graph and cross-reference table;
- field and schema validation;
- the three shipped pattern modules;
- the in-memory profile store, the module registry and the locale and text
  lookup.

Everything is a pure function over immutable datatypes. Mutation in the
source (an array push, a map set, a module-level `let locale`) becomes a
function from the old value to the new one.

Several things are parameters rather than definitions:

- **`fmt: real -> string`** prints a number inside a template string. The
  JavaScript `Number#toString` algorithm is not modelled, so every exporter
  property holds for any printer.
- **`hypot: (real, real) -> real`** stands for `Math.hypot`. Lemmas that need
  its meaning require `Points.IsHypot(hypot)`.
- **`numberOf: string -> Value`** stands for `Number(string)` parsing.
- **`edgeLabel`** stands for the annotation constructor that the thong draft
  imports but `annotations.js` does not define. As written, that import
  stops the thong module from loading at all (see "## Left out").

Integers that the PDF writer prints are concrete: object numbers, lengths,
byte offsets and page labels go through `Strings.NatStr`.

Modules, one per source component:

- `Js`: the JavaScript values the drafts read (`Num`, `NaN`, `Str`, `Null`,
  `Undefined`), `Option`, and `Result` with `Throws` for exceptions.
- `Strings`: `join`, `includes`, an ASCII `toLowerCase`, integer printing and
  parsing, and `padStart`.
- `MathUtil`: `clamp` and `sum`.
- `Points`, `Units`, `Bezier`, `Boxes` and `Paths`: the geometry.
- `Offset`: the seam-allowance engine.
- `Annotations`, `Panels` and `Drafts`: the shape of a draft, and path
  collection.
- `Constraints`, `Validate`, `Schema` and `PatternSchemas`: validation and
  the three schema tables.
- `RectangleDraft`, `PantiesDraft` and `ThongDraft`: the three draft
  functions.
- `SvgExport`, `PdfDocument` (the object graph) and `PdfExport` (the tiling):
  the exporters.
- `Store`, `Registry` and `I18n`: the small state machines.

`mergeBounds` appears twice in the source, once in each exporter, with the
same meaning. It is modelled once, as `Boxes.MergeBounds`.

## Model

| member | source | states |
|---|---|---|
| MathUtil.Clamp | src/core/utils/math.js:1 | the result lies in [lo, hi] when lo ≤ hi; a value already in range is returned unchanged; a value below lo gives lo and a value above hi gives hi |
| MathUtil.ClampIdempotent | src/core/utils/math.js:1 | clamping a clamped value changes nothing |
| MathUtil.Sum | src/core/utils/math.js:8-10 | no values sum to 0; non-negative values give a non-negative sum that is at least each value |
| MathUtil.SumConcat | src/core/utils/math.js:8-10 | the sum of a concatenation is the sum of the sums |
| MathUtil.SumSnoc | src/core/utils/math.js:8-10 | the sum of no values is 0, and appending x adds x |
| Points.Clone | src/core/geometry/Point.js:7-9 | a clone has the original's coordinates |
| Points.Add | src/core/geometry/Point.js:11-13 | subtracting either operand from the sum gives back the other |
| Points.Subtract | src/core/geometry/Point.js:15-17 | the difference is zero exactly for equal points, and p minus the difference is q |
| Points.Scale | src/core/geometry/Point.js:19-21 | factor 1 is the identity, factor 0 gives the origin, and the result stays on the line through the origin and p |
| Points.DistanceTo | src/core/geometry/Point.js:23-27 | for a true hypotenuse the distance is non-negative and its square is dx² + dy² |
| Points.AddThenSubtract | src/core/geometry/Point.js:11-17 | adding q and then subtracting q gives back the original point |
| Points.AddCommutes | src/core/geometry/Point.js:11-13 | point addition is commutative |
| Points.ScaleLaws | src/core/geometry/Point.js:19-21 | scaling by 1 is the identity, and scaling by a then b equals scaling by a·b |
| Points.DistanceLaws | src/core/geometry/Point.js:23-27 | distance is symmetric and zero from a point to itself, and its square is dx² + dy² |
| Points.DistanceThreeFour | src/core/geometry/Point.js:23-27 | the distance from (0,0) to (3,4) is 5 |
| Units.MmPerUnit | src/core/geometry/Units.js:5-16 | every unit's millimetre factor is positive |
| Units.ToMm | src/core/geometry/Units.js:5-10 | converts by the factor 1 for mm, 10 for cm and 25.4 for in; any other unit passes the value through |
| Units.FromMm | src/core/geometry/Units.js:11-16 | the result times the unit's factor is the millimetre value |
| Units.RoundTrip | src/core/geometry/Units.js:5-16 | fromMm undoes toMm and toMm undoes fromMm, for every unit including unknown ones |
| Units.DefaultIsCm | src/core/geometry/Units.js:5-16 | a missing unit means "cm" for both conversions |
| Units.ToPtFromMm | src/core/geometry/Units.js:17-19 | points times 25.4 equal millimetres times 72, and a positive length stays positive |
| Units.PointsPerInch | src/core/geometry/Units.js:17-19 | 25.4 mm is 72 pt, and the conversion is additive, homogeneous and strictly increasing |
| Units.Monotone | src/core/geometry/Units.js:5-16 | toMm and fromMm preserve strict order |
| Bezier.CubicAt | src/core/geometry/Bezier.js:3-15 | the curve starts at p0 for t = 0 and ends at p3 for t = 1 |
| Bezier.WeightsPartition | src/core/geometry/Bezier.js:4-10 | the four Bernstein weights sum to 1 and are non-negative on [0, 1] |
| Bezier.BlendBetween | src/core/geometry/Bezier.js:11-14 | each blended coordinate lies between the least and greatest control coordinate |
| Bezier.CubicInControlBox | src/core/geometry/Bezier.js:3-15 | for t in [0, 1] the point lies in the control points' bounding box, and coincident control points give that point |
| Bezier.SampleCubic | src/core/geometry/Bezier.js:17-24 | n subdivisions give n + 1 samples, the first equal to p0 and the last to p3 |
| Bezier.SampleOrder | src/core/geometry/Bezier.js:19-20 | sample parameters i/n increase strictly with i and stay within [0, 1] |
| Bezier.SamplesInControlBox | src/core/geometry/Bezier.js:17-24 | every sample lies in the control box, and coincident control points make every sample that point |
| Boxes.BoxOf | src/core/geometry/Path.js:75-85 | an empty point list has no finite bounds; otherwise min ≤ max on both axes and every point is inside |
| Boxes.BoxOfTight | src/core/geometry/Path.js:79-84 | each of the four bounds is attained by some point |
| Boxes.MergeBounds | src/core/export/svgExport.js:3-9 | the merge is finite unless every input is empty; it encloses every finite input box and is ordered when they are |
| Boxes.MergeBoundsTight | src/core/export/svgExport.js:4-7 | each of the four merged sides (minX, minY, maxX, maxY) is attained by some input box |
| Boxes.MergeOfConcat | src/core/export/pdfExport.js:5-12 | merging the bounds of two point lists equals the bounds of their concatenation |
| Paths.NewPath | src/core/geometry/Path.js:5-8 | a new path has no segments and no current point |
| Paths.MoveTo | src/core/geometry/Path.js:10-15 | appends exactly one move segment, leaves earlier segments unchanged and makes the target the current point |
| Paths.LineTo | src/core/geometry/Path.js:17-22 | appends one line that starts at the previous current point and makes its end the current point |
| Paths.CurveTo | src/core/geometry/Path.js:24-31 | appends one curve that starts at the previous current point; a curve before any moveTo has no start |
| Paths.ClosePath | src/core/geometry/Path.js:33-36 | appends one close segment and leaves the current point unchanged |
| Paths.StartedPathIsAnchored | src/core/geometry/Path.js:10-31 | a path built through the builders that starts with moveTo has a start point on every curve |
| Paths.SvgCommands | src/core/geometry/Path.js:38-55 | one command per segment in segment order, each beginning with its letter M, L, C or Z |
| Paths.ToSvgPath | src/core/geometry/Path.js:38-55 | an empty path gives ""; otherwise the text starts with the first segment's letter and contains every segment's command |
| Paths.SvgPathAppend | src/core/geometry/Path.js:38-55 | an empty path gives ""; appending a segment appends its command after a single space |
| Paths.SegmentPoints | src/core/geometry/Path.js:59-70 | a move or line contributes one point, a curve n (its samples without the first), a close none; the last is the segment's end |
| Paths.ToPoints | src/core/geometry/Path.js:57-73 | the flattening has #M + #L + n·#C points and ends at the path's last endpoint |
| Paths.ToPointsSnoc | src/core/geometry/Path.js:59-71 | appending a segment appends that segment's points |
| Paths.ToPointsConcat | src/core/geometry/Path.js:57-73 | the flattening of a concatenation is the concatenation of the flattenings |
| Paths.Bounds | src/core/geometry/Path.js:75-85 | a path with no points has no finite bounds; otherwise the bounds are ordered and contain every flattened point |
| Paths.EndpointsInBounds | src/core/geometry/Path.js:75-85 | every segment endpoint lies within the path's bounds |
| Paths.VertexInPoints | src/core/geometry/Path.js:57-73 | every segment endpoint is among the flattened points |
| Offset.Normal | src/core/geometry/Offset.js:6-11 | the normal is perpendicular to the edge, a zero-length edge gives the zero vector, and otherwise the normal times the length is (−dy, dx) |
| Offset.LineIntersection | src/core/geometry/Offset.js:13-30 | there is no intersection exactly when the denominator's magnitude is below 1e-9; otherwise the point lies on both infinite lines |
| Offset.ShiftedEdge | src/core/geometry/Offset.js:43-49 | a shifted edge has the original edge's direction, and both ends move by the same vector |
| Offset.ShiftedEdgeDisplacement | src/core/geometry/Offset.js:46-48 | the displacement is perpendicular to the edge, and its size times the edge length is the offset |
| Offset.ShiftedEdges | src/core/geometry/Offset.js:40-50 | n edges for a closed polyline and n − 1 for an open one; edge i joins point i to point i + 1, wrapping around |
| Offset.PointsEqual | src/core/geometry/Offset.js:32-34 | true exactly when both coordinates differ by less than 1e-9, so equal points always compare equal |
| Offset.Corner | src/core/geometry/Offset.js:68-81 | the corner is the single miter point exactly when the neighbouring shifted edges intersect and the intersection lies within the miter limit of the vertex, and then it is that intersection; otherwise it is the two bevel points |
| Offset.Corners | src/core/geometry/Offset.js:64-82 | each visited vertex contributes one or two points |
| Offset.Candidates | src/core/geometry/Offset.js:60-86 | between n and 2n candidate points; an open polyline starts at the first edge's start and ends at the last edge's end |
| Offset.PushAll | src/core/geometry/Offset.js:54-58 | pushing keeps the earlier output, adds only pushed points, never creates two adjacent equal points and ends equal to the last pushed point |
| Offset.DropClosingDuplicate | src/core/geometry/Offset.js:88-90 | the last point is dropped exactly when the polyline is closed, has more than one point, and ends where it starts |
| Offset.Deduplicate | src/core/geometry/Offset.js:52-90 | the output has no adjacent near-equal points, uses only candidate points, and keeps an open polyline's first point and last point |
| Offset.OffsetPolyline | src/core/geometry/Offset.js:36-93 | fewer than two points give nothing; otherwise between 1 and 2n points, no two adjacent equal, and an open polyline starts at the first shifted start |
| Offset.Direction | src/core/geometry/Offset.js:100-106 | the direction is −1 exactly when the path is closed and its shoelace area is positive, else +1 |
| Offset.AreaReverse | src/core/geometry/Offset.js:100-105 | reversing the points negates the shoelace area |
| Offset.DirectionFlips | src/core/geometry/Offset.js:106 | reversing a closed outline with non-zero area flips the offset direction |
| Offset.RectangleArea | src/core/geometry/Offset.js:100-105 | the rectangle (0,0),(w,0),(w,h),(0,h) has area w·h |
| Offset.BuildPolyline | src/core/geometry/Offset.js:112-119 | one moveTo to the first point, a lineTo through each later point in order, and a close exactly when closed |
| Offset.Rebuild | src/core/geometry/Offset.js:110-120 | no shifted points give the input path back; otherwise the result is that polyline path |
| Offset.OffsetPath | src/core/geometry/Offset.js:95-121 | a zero or invalid distance gives the path itself, for any path, before anything is flattened; otherwise fewer than two points give the path itself, and more give one move, then only lines, closed exactly when the input was, with at most 2n + 1 segments |
| Offset.OffsetFlattened | src/core/geometry/Offset.js:97-121 | for a non-zero distance: fewer than two flattened points give the path itself; otherwise one move, then only lines, closed exactly when the input was, with at most 2n + 1 segments |
| Offset.OffsetPoints | src/core/geometry/Offset.js:106-120 | the offset outline is the polyline through the shifted points, with the miter limit four times the distance |
| Offset.MiterLimitIsFourTimesDistance | src/core/geometry/Offset.js:107-108 | the miter limit is 4·|offset| whichever the direction |
| Annotations.MakeGrainline | src/core/pattern/annotations.js:1-3 | a grainline record tagged "grainline" holding start and end unchanged |
| Annotations.MakeNotch | src/core/pattern/annotations.js:5-7 | a notch record tagged "notch" whose label defaults to "notch" |
| Annotations.MakeLabel | src/core/pattern/annotations.js:9-11 | a label record tagged "label" holding point and text unchanged |
| Annotations.ConstructorTagsDistinct | src/core/pattern/annotations.js:1-11 | the three constructors produce different tags |
| Panels.PanelId | src/core/pattern/panels.js:6 | a panel's id is its id, else its name, else "panel", and is never empty |
| Panels.PanelEntries | src/core/pattern/panels.js:7-15 | one entry per path of the panel, named panelId + "." + pathName; a panel without paths contributes none |
| Panels.LooseEntries | src/core/pattern/panels.js:19-24 | entries mirror the path table with no panel id and name equal to pathName |
| Panels.CollectPaths | src/core/pattern/panels.js:1-25 | a missing draft gives []; non-empty panels give one entry per panel path; otherwise the entries mirror draft.paths |
| Panels.EntryCount | src/core/pattern/panels.js:3-17 | the entry count is the sum of the panels' path counts |
| Panels.PanelOrder | src/core/pattern/panels.js:5-16 | entries come panel by panel in order |
| Panels.PanelEntryNames | src/core/pattern/panels.js:6-14 | every panel entry's name is panelId + "." + pathName |
| Panels.HasSeamPaths | src/core/pattern/panels.js:27-29 | true exactly when some entry's pathName (or name), lower-cased, contains "seam"; false on no entries |
| Panels.SeamNames | src/core/pattern/panels.js:27-29 | a plain path name is not a seam path, and its "_seam" companion is |
| Panels.OnePanelSeamTable | src/core/pattern/panels.js:3-29 | for a one-panel draft, seam paths are reported exactly when the panel has a seam outline |
| Panels.LooseSeamTable | src/core/pattern/panels.js:19-29 | for a draft without panels, seam paths are reported exactly when the table has a seam outline |
| Panels.DraftNamesPlain | src/patterns/test_rectangle/draft.js:37-40 | the path names the drafts use contain no upper case and no "seam" |
| Drafts.SeamTable | src/patterns/test_rectangle/draft.js:20-28 | the path table holds the outline, and the "_seam" companion after it only when there is a seam outline |
| Drafts.Names | src/core/export/svgExport.js:46 | the table's keys, in order |
| Drafts.Values | src/core/export/svgExport.js:29 | the table's paths, in order |
| Drafts.PathBounds | src/core/export/svgExport.js:30 | one bounds per table path, in order |
| Drafts.VertexInTableBounds | src/core/export/svgExport.js:29-30 | every endpoint of every path lies within the merged bounds |
| Drafts.UnitOrCm | src/core/export/pdfExport.js:112 | the draft's unit when it is a non-empty string, else "cm" |
| Constraints.ValidateField | src/core/validate/constraints.js:1-18 | an empty, null or NaN value gives only "is required"; a non-number gives only "must be a number"; no errors exactly when within inclusive bounds; below min puts "at least" first and above max puts "at most" last; for a number there is exactly one message per violated bound, so never more than two |
| Constraints.MessagesDiffer | src/core/validate/constraints.js:3-16 | the four kinds of message are pairwise different |
| Validate.Numeric | src/core/validate/validate.js:7 | the empty string and numbers pass through unconverted |
| Validate.ValidatePrefix | src/core/validate/validate.js:5-12 | after the first n fields, exactly the failing ones have a key, each mapped to that field's own errors |
| Validate.ValidateSchema | src/core/validate/validate.js:3-14 | only failing fields have a key, every key is a schema field key with that field's errors, and every failing field is reported |
| Validate.EmptyIffAllWithinBounds | src/core/validate/validate.js:3-14 | the result is empty exactly when every field's value is within its bounds |
| Validate.DistinctKeysReportOwnErrors | src/core/validate/validate.js:5-12 | with distinct field keys, a field's key is present exactly when it fails, and maps to its own errors |
| Validate.FieldErrorsReadOneValue | src/core/validate/validate.js:6-8 | a field's errors depend only on the value under its own key, and "" is reported as required |
| PatternSchemas.DefaultsValidate | src/core/validate/validate.js:3-14 | a schema whose defaults lie within its bounds validates its defaults to no errors |
| PatternSchemas.RectangleSchemaWellFormed | src/patterns/test_rectangle/schema.js:1-36 | the rectangle schema has three fields with min ≤ max, and defaults for every key within bounds |
| PatternSchemas.PantiesSchemaWellFormed | src/patterns/panties_basic/schema.js:1-70 | four fields with ordered bounds, in-bounds defaults, and option defaults equal to each option's default and among its choices |
| PatternSchemas.ThongSchemaWellFormed | src/patterns/panties_thong_basic/schema.js:1-97 | four fields with ordered bounds, in-bounds defaults, and option defaults equal to each option's default and among its choices |
| PatternSchemas.ThongBoundsOrdered | src/patterns/panties_thong_basic/schema.js:5-54 | every thong field has min ≤ max |
| PatternSchemas.ThongDefaultsWithinBounds | src/patterns/panties_thong_basic/schema.js:55-60 | every thong default lies within its field's bounds |
| PatternSchemas.ThongOptionDefaultsConsistent | src/patterns/panties_thong_basic/schema.js:61-96 | the thong option defaults (width 3, allowance 6) equal the options' defaults and are among their choices |
| RectangleDraft.RectanglePanel | src/patterns/test_rectangle/draft.js:12-18 | the panel is exactly M(0,0) L(w,0) L(w,h) L(0,h) Z |
| RectangleDraft.RectangleAnnotations | src/patterns/test_rectangle/draft.js:30-35 | a grainline, two notches, and a label at (w/2, h/2) |
| RectangleDraft.DraftRectangle | src/patterns/test_rectangle/draft.js:6-55 | throws exactly when a measurement is not a number; otherwise "panel", with "panel_seam" exactly when the allowance is positive, one panel sharing those paths, unit "cm", the module id, and applied exactly when the allowance is positive |
| RectangleDraft.ModuleIdAgrees | src/patterns/test_rectangle/schema.js:2 | the schema id and the draft's module id are both "test_rectangle" |
| RectangleDraft.QuadPoints | src/core/geometry/Path.js:57-73 | the rectangle outline flattens to its four corners |
| RectangleDraft.CornerBox | src/core/geometry/Path.js:75-85 | the four corners of a w × h rectangle are bounded by (0,0)–(w,h) |
| RectangleDraft.PanelBounds | src/patterns/test_rectangle/draft.js:12-18 | the panel's bounds are exactly (0,0)–(w,h) |
| RectangleDraft.SeamPathIffAllowance | src/patterns/test_rectangle/draft.js:20-28 | the draft has seam paths exactly when the seam allowance is positive |
| PantiesDraft.PantiesBlock | src/patterns/panties_basic/draft.js:16-20 | crotch width in [5, 9], leg curve depth in [6, 12], crotch width legOpening/8 when that is in range, and the quarter-width formulas |
| PantiesDraft.FrontPath | src/patterns/panties_basic/draft.js:22-30 | the front is M, L, C, C, L, Z from (0,0) through the block's points |
| PantiesDraft.SeamAllowance | src/patterns/panties_basic/draft.js:32 | the allowance is 0.8 exactly when the option is the string "on", else 0 |
| PantiesDraft.FrontAnnotations | src/patterns/panties_basic/draft.js:43-47 | a vertical grainline, a notch on that line at rise height, and a label |
| PantiesDraft.DraftPanties | src/patterns/panties_basic/draft.js:10-60 | throws exactly when a measurement is not a number; otherwise "front", with "front_seam" exactly when the allowance is positive, no panels, unit "cm", title "Panties Basic", the module id, and applied exactly when the allowance is positive |
| PantiesDraft.ModuleIdAgrees | src/patterns/panties_basic/schema.js:2 | the schema id and the draft's module id are both "panties_basic" |
| PantiesDraft.SeamPathIffOn | src/patterns/panties_basic/draft.js:32-41 | the draft has seam paths exactly when the option is "on" |
| PantiesDraft.OnlyTheStringOnApplies | src/patterns/panties_basic/draft.js:32 | the schema's default option and the number 6 both give no allowance |
| PantiesDraft.OutlinesClosed | src/patterns/panties_basic/draft.js:30 | the front and its seam outline are both closed |
| ThongDraft.ThongWidth | src/patterns/panties_thong_basic/draft.js:20 | a numeric width is clamped to [2, 6], a missing one is 3, and the result is NaN exactly when `Number()` of the value (or of the default 3) is NaN: a NaN option or a string that does not parse |
| ThongDraft.ThongBlock | src/patterns/panties_thong_basic/draft.js:16-20 | leg curve depth in [6, 14], the thong width kept, and the quarter-width formulas |
| ThongDraft.FrontPath | src/patterns/panties_thong_basic/draft.js:22-36 | the front is M, L, C, C, L, Z from (0,0) through the block's points |
| ThongDraft.SeamAllowanceCm | src/patterns/panties_thong_basic/draft.js:38-39 | the allowance is mm/10 when the option is a positive number, else 0 |
| ThongDraft.RecordedMm | src/patterns/panties_thong_basic/draft.js:75 | the recorded millimetres are the input when applied, else 0 |
| ThongDraft.FrontAnnotations | src/patterns/panties_thong_basic/draft.js:50-55 | grainline, notch, label, then the waistline edge label at (waistWidth/2, 1) |
| ThongDraft.DraftThong | src/patterns/panties_thong_basic/draft.js:10-78 | throws exactly when a measurement is not a number; otherwise "front", with "front_seam" exactly when the allowance is positive, one "Front" panel (cut 1, "Main") sharing the paths, and meta that records the allowance |
| ThongDraft.ModuleIdAgrees | src/patterns/panties_thong_basic/schema.js:2 | the schema id equals the draft's module id "panties_thong_basic" |
| ThongDraft.SeamPathIffPositiveMm | src/patterns/panties_thong_basic/draft.js:38-48 | the draft has seam paths exactly when the millimetre option is a positive number |
| ThongDraft.DefaultOptions | src/patterns/panties_thong_basic/schema.js:93-96 | the schema's option defaults give width 3 and a 0.6 cm allowance recorded as 6 mm |
| ThongDraft.NoOptions | src/patterns/panties_thong_basic/draft.js:20 | with no options the width is 3 and there is no allowance |
| ThongDraft.OutlinesClosed | src/patterns/panties_thong_basic/draft.js:36 | the front and its seam outline are both closed |
| SvgExport.ViewFrame | src/core/export/svgExport.js:31-34 | the viewBox starts 2 before the bounds and spans them plus 2 on each side |
| SvgExport.RenderAnnotation | src/core/export/svgExport.js:14-23 | grainline → line with the arrow marker, notch → circle, label → text holding the label, anything else → "" |
| SvgExport.AnnotationMarkups | src/core/export/svgExport.js:12-24 | one markup per annotation, in order |
| SvgExport.RenderAnnotations | src/core/export/svgExport.js:11 | a missing list renders "" |
| SvgExport.AnnotationsRendered | src/core/export/svgExport.js:11-26 | every annotation's markup is in the result, and a further annotation is appended after a newline |
| SvgExport.PathElement | src/core/export/svgExport.js:46 | the element starts with the path's d attribute and ends with its data-name |
| SvgExport.PathElements | src/core/export/svgExport.js:45-47 | one element per path table entry, in key order |
| SvgExport.ScaleInfo | src/core/export/svgExport.js:38 | the unit is shown, and the seam allowance reads "on" exactly when applied |
| SvgExport.CalibrationSize | src/core/export/svgExport.js:39 | the calibration leg converts back to exactly 50 mm in the draft's unit |
| SvgExport.CalibrationPrintsFiftyMm | src/core/export/svgExport.js:39-50 | sizes use the draft unit; the leg is 50 mm except when the unit is "", where the two defaults disagree and it prints as 5 mm |
| SvgExport.Parts | src/core/export/svgExport.js:49-68 | the document's pieces in template order |
| SvgExport.PartsJoined | src/core/export/svgExport.js:49-68 | the document opens with the XML header and svg tag, closes with the svg end tag, and contains each piece |
| SvgExport.Export | src/core/export/svgExport.js:28-69 | the document holds the viewBox, the mm size, every path, the annotations, the calibration group, the title, scale and summary lines |
| SvgExport.VertexInsideViewBox | src/core/export/svgExport.js:30-34 | every path vertex lies inside the viewBox, 2 units from its edge |
| SvgExport.EveryPathDrawn | src/core/export/svgExport.js:45-47 | every path of the table appears as an element with its own key as data-name |
| SvgExport.EveryAnnotationDrawn | src/core/export/svgExport.js:43 | every annotation's markup appears in the document |
| PdfExport.PdfOp | src/core/export/pdfExport.js:17-33 | each operator ends with m, l, c or h according to the segment kind |
| PdfExport.PdfOps | src/core/export/pdfExport.js:16-34 | one operator per segment, in order |
| PdfExport.PathToPdf | src/core/export/pdfExport.js:14-37 | the operators always end with "S", which stands alone exactly for an empty path |
| PdfExport.SameOutlineAsSvg | src/core/export/pdfExport.js:14-37 | the PDF operator for each segment matches the SVG command letter for that segment |
| PdfExport.UnitScale | src/core/export/pdfExport.js:130 | the unit scale is positive |
| PdfExport.UnitScaleConverts | src/core/export/pdfExport.js:130 | multiplying by the unit scale is converting to millimetres and then to points |
| PdfExport.MarkLines | src/core/export/pdfExport.js:39-51 | there are eight assembly marks |
| PdfExport.AssemblyMarks | src/core/export/pdfExport.js:39-51 | every mark's text is in the output |
| PdfExport.MarksOnContentEdges | src/core/export/pdfExport.js:42-49 | every mark lies on a line through an edge of the content rectangle; at three corners a horizontal and a vertical mark end on the corner, while the two marks near (m, m) run from the sheet's edges over the first 12 pt |
| PdfExport.CalibrationEdges | src/core/export/pdfExport.js:57-61 | the calibration mark has four edges |
| PdfExport.CalibrationSquare | src/core/export/pdfExport.js:53-69 | the four edges close into an axis-parallel square with 10 mm sides; in the page's y-up coordinates its lower edge lies 6 pt above the bottom margin line, inside the content area at the lower left |
| PdfExport.TileCount | src/core/export/pdfExport.js:122-123 | there is always at least one tile per axis |
| PdfExport.Ceil | src/core/export/pdfExport.js:122-123 | the ceiling n satisfies n − 1 < x ≤ n |
| PdfExport.TilesCover | src/core/export/pdfExport.js:119-123 | the tiles together cover the pattern, and one tile fewer would not |
| PdfExport.TileFor | src/core/export/pdfExport.js:137-140 | a position within n tiles lies within some tile k < n |
| PdfExport.TileIndex | src/core/export/pdfExport.js:130-140 | each coordinate of the pattern falls within some column (or row) of the tiling |
| PdfExport.ShiftX | src/core/export/pdfExport.js:137-152 | the horizontal translation moves column col's left edge onto the left margin; column 0 moves by margin − minX |
| PdfExport.ShiftYAsWritten | src/core/export/pdfExport.js:137-153 | as written, row row's top edge lands at the margin plus twice that edge, not on the margin; row 0 moves by margin + minY |
| PdfExport.ShiftY | src/core/export/pdfExport.js:137-153 | the corrected vertical translation moves row row's top edge onto the top margin, and differs from the translation as written by twice that edge |
| PdfExport.AxisShown | src/core/export/pdfExport.js:152-153 | the page translation puts the tile's part of the pattern inside the clip rectangle |
| PdfExport.TileShifted | src/core/export/pdfExport.js:137-153 | in the tile that contains it, a coordinate lands inside the margins |
| PdfExport.EveryPointOnSomePage | src/core/export/pdfExport.js:134-153 | with the vertical translation corrected, every point of the pattern is shown on some page |
| PdfExport.AsWrittenLaterRowsEmpty | src/core/export/pdfExport.js:153 | with the translation as written and for a drawing with minY ≥ 0, a page in a later row shows only points with y = 0, and only when minY = 0 |
| PdfExport.AsWrittenDropsPoint | src/core/export/pdfExport.js:153 | for the 25 × 35 cm rectangle at the default margin, the point (10, 30) is on none of the four pages as written, and is on page (2,1) once corrected |
| PdfExport.TestRectangleBounds | src/patterns/test_rectangle/draft.js:12-18 | the 25 × 35 rectangle's merged bounds are (0,0)–(25,35) |
| PdfExport.StreamLines | src/core/export/pdfExport.js:149-169 | nineteen lines: the translation, the path commands, the marks, the calibration only on tile (0,0), and the page label |
| PdfExport.CalibrationMark | src/core/export/pdfExport.js:53-69 | the mark begins with a moveTo of the first square corner, draws lines to the other three, and ends with the "(10mm calibration) Tj" text block closed by ET |
| PdfExport.PageStream | src/core/export/pdfExport.js:145-169 | every page holds the path commands, the marks and its label; page (0,0) holds the calibration |
| PdfExport.LabelsDistinct | src/core/export/pdfExport.js:166 | different pages get different labels |
| PdfExport.Grid | src/core/export/pdfExport.js:135-136 | pages are row-major: entry k is (k / cols, k % cols) |
| PdfExport.RowTiles | src/core/export/pdfExport.js:136 | the pages of one row, column by column |
| PdfExport.GridCovers | src/core/export/pdfExport.js:134-173 | every (row, col) tile becomes page row·cols + col |
| PdfExport.Streams | src/core/export/pdfExport.js:171 | one stream per tile, in tile order |
| PdfExport.PageStreams | src/core/export/pdfExport.js:134-173 | the streams of all rows × cols tiles in row-major order |
| PdfExport.Commands | src/core/export/pdfExport.js:145 | every path's operators are in the page commands |
| PdfExport.Export | src/core/export/pdfExport.js:111-178 | pageCount is rows·cols and at least 1, and the document is built from the row-major page streams on A4 |
| PdfDocument.Kids | src/core/export/pdfExport.js:94 | /Kids lists the page ids in order |
| PdfDocument.PageObjects | src/core/export/pdfExport.js:86-92 | each page adds its content stream and then its page object |
| PdfDocument.Objects | src/core/export/pdfExport.js:80-94 | catalog 1, pages 2, font 3, content 4 + 2i and page 5 + 2i, for 3 + 2·pages objects |
| PdfDocument.Offsets | src/core/export/pdfExport.js:96-100 | offset k is the header length plus the length of the first k object texts |
| PdfDocument.WriteObjects | src/core/export/pdfExport.js:96-100 | the body is the header and the numbered objects, with their offsets recorded |
| PdfDocument.WriteXrefEntries | src/core/export/pdfExport.js:104-106 | the entries are the padded offsets in order |
| PdfDocument.BuildPdf | src/core/export/pdfExport.js:71-109 | the document starts with the header, has 3 + 2·pages objects, and object k+1's "k+1 0 obj" starts at its recorded offset |
| PdfDocument.ObjectAtOffset | src/core/export/pdfExport.js:96-100 | each object's text starts at its recorded offset |
| PdfDocument.StartXrefPointsAtTable | src/core/export/pdfExport.js:102-107 | the document ends with "startxref", the position of "xref", and "%%EOF" |
| PdfDocument.XrefEntriesReadBack | src/core/export/pdfExport.js:104-106 | each entry is 20 characters and its first ten digits read back as the object's offset (section 7.5.4 of ISO 32000-1) |
| PdfDocument.LengthReadsBack | src/core/export/pdfExport.js:87 | each content object's /Length is its stream's length |
| PdfDocument.PageTreeResolves | src/core/export/pdfExport.js:86-94 | the pages object refers to each page, and each page is a page whose /Contents refers to its own stream |
| Strings.IncludesIsContains | src/core/pattern/panels.js:28 | `includes` finds t exactly when t occurs in s |
| Strings.LowerKeepsLowerCase | src/core/pattern/panels.js:28 | lower-casing text without capitals changes nothing |
| Strings.NatStr | src/core/export/pdfExport.js:99 | an integer prints as a non-empty run of digits without leading zeros |
| Strings.NatStrRoundTrip | src/core/export/pdfExport.js:99 | reading a printed integer gives it back |
| Strings.NatStrInjective | src/core/export/pdfExport.js:99 | different integers print differently |
| Strings.PadStart | src/core/export/pdfExport.js:105 | padding keeps the text at the end and fills up to the width with the pad character |
| Strings.PaddedRoundTrip | src/core/export/pdfExport.js:105 | a zero-padded offset reads back as the offset |
| Store.FindIndex | src/ui/state/store.js:30 | the index of the first profile with the id, or −1 when there is none |
| Store.Upsert | src/ui/state/store.js:29-38 | an existing id is replaced in place, a new id is appended, lastProfileId becomes the profile's id, and nothing else changes |
| Store.UpsertKeepsIdsUnique | src/ui/state/store.js:29-36 | upsert keeps ids unique, grows the list only for a new id, and the profile is then found under its id |
| Store.Without | src/ui/state/store.js:41 | exactly the profiles with other ids remain |
| Store.WithoutConcat | src/ui/state/store.js:41 | filtering keeps the order of the remaining profiles |
| Store.WithoutAbsent | src/ui/state/store.js:41 | deleting an absent id keeps the list |
| Store.WithoutUnique | src/ui/state/store.js:41 | deleting keeps ids unique |
| Store.Delete | src/ui/state/store.js:40-46 | removes the id; lastProfileId is unchanged unless it was that id, in which case it becomes the first remaining id, or null when none remains or that id is the empty string |
| Store.DeleteUndoesInsert | src/ui/state/store.js:29-46 | deleting a newly inserted profile restores the list |
| Store.DeleteIdempotent | src/ui/state/store.js:40-46 | deleting twice is deleting once |
| Registry.Ids | src/core/pattern/registry.js:1 | the registered ids |
| Registry.IndexOf | src/core/pattern/registry.js:7 | the position of the id's entry, or −1 when it is not registered |
| Registry.GetModule | src/core/pattern/registry.js:14-16 | a lookup misses exactly for an unregistered id |
| Registry.GetModules | src/core/pattern/registry.js:10-12 | one module per entry, in insertion order |
| Registry.Register | src/core/pattern/registry.js:3-8 | a module without an id throws and leaves nothing changed; a known id is overwritten in place; a new id is added last |
| Registry.RegisterThenGet | src/core/pattern/registry.js:7-16 | after registering, the id gives the module, other ids are unchanged, and the count grows only for a new id |
| Registry.RegisterKeepsDistinct | src/core/pattern/registry.js:7 | registration keeps one entry per id and adds the module's id |
| Registry.IndexUnique | src/core/pattern/registry.js:7 | each entry is found at its own position |
| Registry.RegisterIdempotent | src/core/pattern/registry.js:7 | registering the same module twice is registering it once |
| Registry.OneModulePerId | src/core/pattern/registry.js:3-8 | registering modules with ids succeeds and keeps exactly one entry per distinct id |
| Registry.ModuleCount | src/core/pattern/registry.js:10-12 | getModules has one element per distinct registered id |
| Registry.DistinctSize | src/core/pattern/registry.js:10-12 | with one entry per id, the entry count is the id count |
| I18n.SetLocale | src/ui/i18n/i18n.js:11-14 | keeps the requested locale exactly when a dictionary exists for it, else "en" |
| I18n.SetLocaleIdempotent | src/ui/i18n/i18n.js:11-14 | setting the locale just returned changes nothing |
| I18n.UnknownLocaleFallsBack | src/ui/i18n/i18n.js:5-14 | a locale without a dictionary falls back to the initial "en" |
| I18n.T | src/ui/i18n/i18n.js:16-18 | the current dictionary's entry when present (even empty), else the key itself |
| I18n.ResolveText | src/ui/i18n/i18n.js:20-33 | null gives ""; a string is translated only when its entry is non-empty; an object gives its locale entry, else its "en" entry, else "[object Object]" |
| I18n.ResolveNonEmpty | src/ui/i18n/i18n.js:20-33 | a non-empty text never resolves to "", and a string without an entry is shown as written |
| I18n.ResolveAgreesWithT | src/ui/i18n/i18n.js:22-29 | a string resolves like t when t finds a non-empty entry, and an object's own translation wins |

## Left out

- Floating point. Numbers are exact reals.
  - `round` (src/core/utils/math.js:3-6) is not modelled.
  - Rounding error, `Infinity` and `-0` are not represented.
  - NaN is a separate value only where the drafts test for it.
  - The `Number.isFinite` guard on the intersection (src/core/geometry/Offset.js:28) cannot fail over reals.
- Bounds of a path with no points (±Infinity in the source) are `None`.
- Svg and PDF export of such a path is excluded by `requires`. The source prints "Infinity" or "NaN" there.
- `Math.hypot`, number-to-text, `Number(string)` and the missing `edgeLabel` are parameters, as described above.
- Strings.Lower: folds only the ASCII capitals A–Z, where `toLowerCase` folds all of Unicode. The only use is the "seam" test on path names (src/core/pattern/panels.js:28). No non-ASCII character lower-cases to s, e, a or m, so the test's answer is the same.
- Offset.Normal: does not state that the normal has unit length. That needs the square root's meaning, and only perpendicularity and normal × length = (−dy, dx) are proved.
- Bezier.SampleCubic: requires at least one subdivision. With zero subdivisions the source divides by zero and yields a NaN sample.
- Offset.OffsetPath: requires every curve to have a start point when the distance is a non-zero number, because that is when the path is flattened (src/core/geometry/Offset.js:97). A zero or non-number distance returns any path unchanged, as line 96 does.
- Paths.ToPoints: requires every curve to have a start point. The source throws a TypeError on a curve drawn before any `moveTo`. `Paths.StartedPathIsAnchored` shows that every path the drafts build meets this requirement.
- ThongDraft.DraftThong: models the draft as if an `edgeLabel` constructor were supplied. As written, src/patterns/panties_thong_basic/draft.js:4 imports `edgeLabel` from src/core/pattern/annotations.js, which exports only `grainline`, `notch` and `label`. An unresolved named import is a SyntaxError when the ES module graph is linked, so the thong draft, its module file and every module that imports them fail to load before any code runs. The behaviour the contract states (throws exactly when a measurement is not a number, and so on) is what the draft does once that import resolves; the program as written has no such behaviour.
- ThongDraft.DraftThong: requires the thong-width option to be numeric. A non-numeric string makes the source draw with NaN coordinates, which the real-valued model cannot carry.
- SvgExport.Export: requires `draft.paths` to be present with finite merged bounds. Without them the source throws or prints NaN.
- PdfExport.Export: has the same requirements, and a margin that leaves a non-zero content width and height. A zero content width makes the tile count infinite.
- PdfExport.StreamLines: translates each page by the corrected vertical shift `PdfExport.ShiftY` (margin − offsetY − minY), not by `marginPt + offsetPtY + minYPt` as src/core/export/pdfExport.js:153 writes it. The as-written shift is `PdfExport.ShiftYAsWritten`, and the Findings row shows what it gets wrong.
- PdfExport.Export: builds its page streams through `PdfExport.StreamLines`, so it too uses the corrected vertical shift rather than line 153 as written.
- PdfExport.Export: returns the PDF text and page count instead of a `Blob` (src/core/export/pdfExport.js:176).
- String lengths count UTF-16 units, as JavaScript does. Byte offsets in the xref table therefore equal character offsets only for ASCII text, and the model does not encode to bytes.
- `loadState` and `saveState` (src/ui/state/store.js:3-27) are not modelled. They are localStorage and JSON I/O; upsert and delete are modelled without the save.
- The UI, the DOM helpers, `download.js` and the service worker are not modelled.
- `PatternModule.js` and the three `module.js` files are not modelled; they only copy fields together. The id agreement between schema and draft is proved by the `ModuleIdAgrees` lemmas.
- `paperSize` is not modelled: the PDF export always uses A4 (210 × 297 mm), as the code does.
- I18n.ResolveText: values other than null, strings and objects go through `String(value)`. They are not represented.
- Some expectations in the repository's tests describe behaviour the code does not have, and the code is followed:
  - a glue line;
  - an assembly map;
  - 100 mm calibration;
  - A3 pages;
  - `panels` on the panties draft;
  - at least three `panels` on the thong draft, with a `thongWidthCm` option the draft never reads (tests/export.test.js:101-106); the draft builds one panel and reads `thongWidth`;
  - a `front_seam` for the numeric panties option 6.

  `PantiesDraft.OnlyTheStringOnApplies` proves the code's behaviour for that last one.

## Findings

| source | as written | input that shows it | evidently intended | confidence | as-written member | corrected member |
|---|---|---|---|---|---|---|
| src/core/export/pdfExport.js:153 | the vertical translation is `marginPt + offsetPtY + minYPt`, moving later rows further down instead of up | the 25 × 35 cm test rectangle at the default 10 mm margin has 2 × 2 pages; the point (10, 30) cm is on none of them | `marginPt - offsetPtY - minYPt`, mirroring the horizontal translation, so every row shows its own strip of the pattern | not executed | PdfExport.AsWrittenDropsPoint | PdfExport.EveryPointOnSomePage |
