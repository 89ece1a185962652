/** The object a pattern's draft function returns: named paths, optional
    panels grouping them, annotations and meta data.  A JavaScript object
    used as a map from path names to paths is a list of (name, path)
    pairs in insertion order, which is the order `Object.entries`,
    `Object.keys` and `Object.values` report for non-numeric keys. */
module Drafts {
  import opened Js
  import opened Boxes
  import opened Paths
  import opened Annotations

  type PathTable = seq<(string, Path)>

  /** The names of a table, in order. */
  function Names(t: PathTable): (r: seq<string>)
    ensures |r| == |t| && forall i :: 0 <= i < |t| ==> r[i] == t[i].0
  {
    seq(|t|, i requires 0 <= i < |t| => t[i].0)
  }

  /** The paths of a table, in order (`Object.values`). */
  function Values(t: PathTable): (r: seq<Path>)
    ensures |r| == |t| && forall i :: 0 <= i < |t| ==> r[i] == t[i].1
  {
    seq(|t|, i requires 0 <= i < |t| => t[i].1)
  }

  /** The table has an entry called `name`. */
  predicate HasPath(t: PathTable, name: string) {
    exists i :: 0 <= i < |t| && t[i].0 == name
  }

  /** `{ [name]: path }`, with `[name + "_seam"]: seam` added after it
      when a seam-allowance path was drafted. */
  function SeamTable(name: string, path: Path, seam: Option<Path>): (t: PathTable)
    ensures |t| == if seam.Some? then 2 else 1
    ensures t[0] == (name, path)
    ensures seam.Some? ==> t[1] == (name + "_seam", seam.value)
  {
    [(name, path)] + if seam.Some? then [(name + "_seam", seam.value)] else []
  }

  const InvalidMeasurements: string := "Invalid measurements provided"

  /** Every path of the table can be flattened (`toPoints` throws on a
      curve drawn before any `moveTo`). */
  predicate Drawable(t: PathTable) {
    forall i :: 0 <= i < |t| ==> Anchored(t[i].1.segments)
  }

  /** `Object.values(paths).map((path) => path.bounds())`. */
  function PathBounds(t: PathTable): (bs: seq<Option<Box>>)
    requires Drawable(t)
    ensures |bs| == |t| && forall i :: 0 <= i < |t| ==> bs[i] == Bounds(t[i].1)
  {
    seq(|t|, i requires 0 <= i < |t| && Drawable(t) => Bounds(t[i].1))
  }

  /** The exporters' `mergeBounds` over every path of the table. */
  function TableBounds(t: PathTable): (b: Option<Box>)
    requires Drawable(t)
  {
    MergeBounds(PathBounds(t))
  }

  /** Every vertex of every path lies in the merged bounds, which are
      ordered. */
  lemma VertexInTableBounds(t: PathTable, i: nat, j: nat)
    requires Drawable(t) && i < |t| && j < |t[i].1.segments| && !t[i].1.segments[j].Close?
    ensures TableBounds(t).Some? && Ordered(TableBounds(t).value)
    ensures InBox(TableBounds(t).value, t[i].1.segments[j].to)
  {
    EndpointsInBounds(t[i].1, j);
    var bs := PathBounds(t);
    assert bs[i].Some?;
    forall k | 0 <= k < |bs| && bs[k].Some? ensures Ordered(bs[k].value) {
      assert bs[k] == Bounds(t[k].1);
    }
  }

  /** A panel: an absent field is `None`. */
  datatype Panel = Panel(
    id: Option<string>,
    name: Option<string>,
    cutQty: Option<nat>,
    material: Option<string>,
    paths: Option<PathTable>)

  datatype Meta = Meta(
    unit: Option<string>,
    title: Option<Text>,
    moduleId: string,
    moduleVersion: string,
    seamAllowanceApplied: bool,
    seamAllowanceMm: Option<real>)

  datatype Draft = Draft(
    panels: Option<seq<Panel>>,
    paths: Option<PathTable>,
    annotations: Option<seq<Annotation>>,
    meta: Option<Meta>)

  /** `meta.unit` as passed to `toMm` (absent when there is no meta). */
  function UnitArg(meta: Option<Meta>): Option<string> {
    if meta.None? then None else meta.value.unit
  }

  /** `meta.unit || "cm"`: the unit both exporters work in. */
  function UnitOrCm(meta: Option<Meta>): (u: string)
    ensures u != ""
    ensures UnitArg(meta).Some? && UnitArg(meta).value != "" ==> u == UnitArg(meta).value
    ensures UnitArg(meta).None? || UnitArg(meta) == Some("") ==> u == "cm"
  {
    match UnitArg(meta)
    case Some(u) => if u == "" then "cm" else u
    case None => "cm"
  }
}
