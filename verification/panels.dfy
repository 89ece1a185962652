/** `collectPaths` and `hasSeamPaths` of src/core/pattern/panels.js: the
    flat list of named paths a draft exposes, through its panels when it
    has any, and whether any of them is a seam-allowance path. */
module Panels {
  import opened Js
  import opened Strings
  import opened Paths
  import opened Drafts

  /** `{ name, path, panelId, pathName }`; `panelId` is `null` for paths
      taken straight from `draft.paths`. */
  datatype Entry = Entry(name: string, path: Path, panelId: Option<string>, pathName: string)

  /** `panel.id || panel.name || "panel"`: the empty string is falsy. */
  function PanelId(p: Panel): (id: string)
    ensures id != ""
    ensures p.id.Some? && p.id.value != "" ==> id == p.id.value
    ensures (p.id.None? || p.id.value == "") && p.name.Some? && p.name.value != "" ==> id == p.name.value
    ensures (p.id.None? || p.id.value == "") && (p.name.None? || p.name.value == "") ==> id == "panel"
  {
    if p.id.Some? && p.id.value != "" then p.id.value
    else if p.name.Some? && p.name.value != "" then p.name.value
    else "panel"
  }

  /** The entries of one panel's `paths || {}`, in key order. */
  function PanelEntries(p: Panel): (r: seq<Entry>)
    ensures |r| == |p.paths.GetOr([])|
    ensures forall i :: 0 <= i < |r| ==>
      var (name, path) := p.paths.GetOr([])[i];
      r[i] == Entry(PanelId(p) + "." + name, path, Some(PanelId(p)), name)
  {
    var id := PanelId(p);
    var table := p.paths.GetOr([]);
    seq(|table|, i requires 0 <= i < |table| =>
      var (name, path) := table[i];
      Entry(if id != "" then id + "." + name else name, path, Some(id), name))
  }

  /** The entries of every panel, panel after panel. */
  function AllPanelEntries(ps: seq<Panel>): seq<Entry>
    decreases |ps|
  {
    if |ps| == 0 then [] else PanelEntries(ps[0]) + AllPanelEntries(ps[1..])
  }

  /** The number of paths the panels hold between them. */
  function PathCount(ps: seq<Panel>): nat
    decreases |ps|
  {
    if |ps| == 0 then 0 else |ps[0].paths.GetOr([])| + PathCount(ps[1..])
  }

  /** Entries of `draft.paths || {}` without panels. */
  function LooseEntries(t: PathTable): (r: seq<Entry>)
    ensures |r| == |t|
    ensures forall i :: 0 <= i < |t| ==> r[i] == Entry(t[i].0, t[i].1, None, t[i].0)
  {
    seq(|t|, i requires 0 <= i < |t| => Entry(t[i].0, t[i].1, None, t[i].0))
  }

  /** `collectPaths(draft)`. */
  function CollectPaths(draft: Option<Draft>): (r: seq<Entry>)
    ensures draft.None? ==> r == []
    ensures draft.Some? && draft.value.panels.Some? && |draft.value.panels.value| > 0 ==>
      |r| == PathCount(draft.value.panels.value)
    ensures draft.Some? && (draft.value.panels.None? || |draft.value.panels.value| == 0) ==>
      && |r| == |draft.value.paths.GetOr([])|
      && forall i :: 0 <= i < |r| ==>
           && r[i].panelId.None?
           && r[i].name == r[i].pathName == draft.value.paths.GetOr([])[i].0
           && r[i].path == draft.value.paths.GetOr([])[i].1
  {
    match draft
    case None => []
    case Some(d) =>
      if d.panels.Some? && |d.panels.value| > 0 then
        EntryCount(d.panels.value);
        AllPanelEntries(d.panels.value)
      else LooseEntries(d.paths.GetOr([]))
  }

  lemma {:induction false} EntryCount(ps: seq<Panel>)
    ensures |AllPanelEntries(ps)| == PathCount(ps)
    decreases |ps|
  {
    if |ps| > 0 {
      EntryCount(ps[1..]);
    }
  }

  /** Panels contribute their entries in panel order: the entries of
      `ps + qs` are those of `ps` followed by those of `qs`. */
  lemma {:induction false} PanelOrder(ps: seq<Panel>, qs: seq<Panel>)
    ensures AllPanelEntries(ps + qs) == AllPanelEntries(ps) + AllPanelEntries(qs)
    decreases |ps|
  {
    if |ps| == 0 {
      assert ps + qs == qs;
    } else {
      assert (ps + qs)[1..] == ps[1..] + qs;
      PanelOrder(ps[1..], qs);
    }
  }

  /** Every entry coming from a panel carries that panel's id and is named
      "<panelId>.<pathName>"; a panel without `paths` contributes nothing. */
  lemma {:induction false} PanelEntryNames(ps: seq<Panel>)
    ensures forall e :: e in AllPanelEntries(ps) ==>
      e.panelId.Some? && e.name == e.panelId.value + "." + e.pathName
    ensures forall i :: 0 <= i < |ps| && ps[i].paths.None? ==> PanelEntries(ps[i]) == []
    decreases |ps|
  {
    if |ps| > 0 {
      PanelEntryNames(ps[1..]);
      var head := PanelEntries(ps[0]);
      assert forall e :: e in head ==> e.panelId.Some? && e.name == e.panelId.value + "." + e.pathName;
    }
  }

  /** `entry.pathName || entry.name`. */
  function SearchName(e: Entry): string {
    if e.pathName != "" then e.pathName else e.name
  }

  /** `hasSeamPaths(entries)`: the `some` loop over the entries. */
  function HasSeamPaths(entries: seq<Entry>): (b: bool)
    ensures b <==> exists i :: 0 <= i < |entries| && Contains(Lower(SearchName(entries[i])), "seam")
    ensures |entries| == 0 ==> !b
    decreases |entries|
  {
    if |entries| == 0 then false
    else
      IncludesIsContains(Lower(SearchName(entries[0])), "seam");
      var rest := HasSeamPaths(entries[1..]);
      assert rest ==> exists i :: 0 <= i < |entries| && Contains(Lower(SearchName(entries[i])), "seam") by {
        if rest {
          var j :| 0 <= j < |entries[1..]| && Contains(Lower(SearchName(entries[1..][j])), "seam");
          assert entries[1..][j] == entries[j + 1];
        }
      }
      Includes(Lower(SearchName(entries[0])), "seam") || rest
  }

  /** A path name that `hasSeamPaths` does not flag, whatever panel holds
      it: not empty, no capitals and no "seam" inside. */
  predicate PlainName(name: string) {
    name != "" && (forall i :: 0 <= i < |name| ==> !('A' <= name[i] <= 'Z')) && !Contains(name, "seam")
  }

  /** The names "panel" and "front" the drafts use are plain. */
  lemma DraftNamesPlain()
    ensures PlainName("panel") && PlainName("front")
  {
    MissingFirstLetter("panel", "seam");
    MissingFirstLetter("front", "seam");
  }

  /** A string without the first letter of `t` does not contain `t`. */
  lemma MissingFirstLetter(s: string, t: string)
    requires |t| > 0 && forall i :: 0 <= i < |s| ==> s[i] != t[0]
    ensures !Contains(s, t)
  {
    forall i | 0 <= i <= |s| - |t| ensures !StartsAt(s, i, t) {
      assert s[i..i + |t|][0] == s[i];
    }
  }

  /** How `hasSeamPaths` sees one "name" / "name_seam" pair. */
  lemma SeamNames(name: string)
    requires PlainName(name)
    ensures !Contains(Lower(name), "seam")
    ensures Contains(Lower(name + "_seam"), "seam")
  {
    LowerKeepsLowerCase(name);
    var seam := name + "_seam";
    assert forall i :: 0 <= i < |seam| ==> !('A' <= seam[i] <= 'Z') by {
      forall i | 0 <= i < |seam| ensures !('A' <= seam[i] <= 'Z') {
        if i < |name| { assert seam[i] == name[i]; }
      }
    }
    LowerKeepsLowerCase(seam);
    assert seam == (name + "_") + "seam" + "";
    ContainsMiddle(name + "_", "seam", "");
  }

  /** A draft whose only panel holds a seam table exposes a seam path
      exactly when the table has one. */
  lemma OnePanelSeamTable(d: Draft, name: string, path: Path, seam: Option<Path>)
    requires d.panels.Some? && |d.panels.value| == 1
    requires d.panels.value[0].paths == Some(SeamTable(name, path, seam))
    requires PlainName(name)
    ensures HasSeamPaths(CollectPaths(Some(d))) <==> seam.Some?
  {
    var ps := d.panels.value;
    assert ps[1..] == [];
    assert AllPanelEntries(ps) == PanelEntries(ps[0]) + [];
    var entries := PanelEntries(ps[0]);
    SeamNames(name);
    if seam.Some? {
      assert SearchName(entries[1]) == name + "_seam";
    } else {
      assert |entries| == 1 && SearchName(entries[0]) == name;
    }
  }

  /** A draft without panels whose paths are a seam table exposes a seam
      path exactly when the table has one. */
  lemma LooseSeamTable(d: Draft, name: string, path: Path, seam: Option<Path>)
    requires d.panels.None?
    requires d.paths == Some(SeamTable(name, path, seam))
    requires PlainName(name)
    ensures HasSeamPaths(CollectPaths(Some(d))) <==> seam.Some?
  {
    var entries := CollectPaths(Some(d));
    var t := d.paths.value;
    SeamNames(name);
    if seam.Some? {
      assert entries[1].pathName == t[1].0;
      assert SearchName(entries[1]) == name + "_seam";
    } else {
      assert |entries| == 1 && entries[0].pathName == t[0].0;
      assert SearchName(entries[0]) == name;
    }
  }
}
