/** The annotation records of src/core/pattern/annotations.js: grainline
    arrows, notches and text labels.  An annotation of any other `type`
    (the thong draft's edge label, for one) is `Unknown`. */
module Annotations {
  import opened Js
  import opened Points

  datatype Annotation =
    | Grainline(start: Point, end: Point)
    | Notch(point: Point, caption: Text)
    | Label(point: Point, text: Text)
    | Unknown(kind: string)

  /** The record's `type` field. */
  function Kind(a: Annotation): string {
    match a
    case Grainline(_, _) => "grainline"
    case Notch(_, _) => "notch"
    case Label(_, _) => "label"
    case Unknown(k) => k
  }

  /** `grainline(start, end)`: the two points are kept as given. */
  function MakeGrainline(start: Point, end: Point): (a: Annotation)
    ensures Kind(a) == "grainline" && a.Grainline?
    ensures a.start == start && a.end == end
  {
    Grainline(start, end)
  }

  /** `notch(point, label = "notch")`: an omitted label (`undefined`) becomes
      "notch". */
  function MakeNotch(point: Point, caption: Option<Text>): (a: Annotation)
    ensures Kind(a) == "notch" && a.Notch? && a.point == point
    ensures caption.None? ==> a.caption == Plain("notch")
    ensures caption.Some? ==> a.caption == caption.value
  {
    Notch(point, caption.GetOr(Plain("notch")))
  }

  /** `label(point, text)`. */
  function MakeLabel(point: Point, text: Text): (a: Annotation)
    ensures Kind(a) == "label" && a.Label?
    ensures a.point == point && a.text == text
  {
    Label(point, text)
  }

  /** The three constructors produce three different tags, whatever their
      arguments. */
  lemma ConstructorTagsDistinct(p: Point, q: Point, l: Option<Text>, t: Text)
    ensures Kind(MakeGrainline(p, q)) != Kind(MakeNotch(p, l))
    ensures Kind(MakeNotch(p, l)) != Kind(MakeLabel(p, t))
    ensures Kind(MakeGrainline(p, q)) != Kind(MakeLabel(p, t))
  {
  }
}
