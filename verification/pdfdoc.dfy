/** `buildPdf` of src/core/export/pdfExport.js: a PDF 1.4 file holding a
    catalog, a page tree, one font and, per page, a content stream and a
    page object; then a cross-reference table giving each object's offset,
    and a trailer.  Offsets count characters; every text the exporter
    writes is ASCII, for which characters and bytes agree. */
module PdfDocument {
  import opened Strings

  const Header: string := "%PDF-1.4\n"
  const CatalogId: nat := 1
  const PagesId: nat := 2
  const FontId: nat := 3
  const Catalog: string := "<< /Type /Catalog /Pages 2 0 R >>"
  const Font: string := "<< /Type /Font /Subtype /Type1 /BaseFont /Helvetica >>"

  /** Object numbers of page `i`'s content stream and of the page itself:
      they are added in pairs after the three fixed objects. */
  function ContentId(i: nat): nat { 4 + 2 * i }
  function PageId(i: nat): nat { 5 + 2 * i }

  /** An indirect reference `n 0 R`. */
  function Ref(id: nat): string { NatStr(id) + " 0 R" }

  /** Line 87: the stream with its length. */
  function ContentObject(stream: string): string {
    "<< /Length " + NatStr(|stream|) + " >>\nstream\n" + stream + "\nendstream"
  }

  const PageHead: string := "<< /Type /Page "

  /** Lines 88-90; the page size is printed by the caller. */
  function PageObject(i: nat, width: string, height: string): string {
    PageHead + PageMiddle(width, height) + ("/Contents " + Ref(ContentId(i)) + " >>")
  }

  function PageMiddle(width: string, height: string): string {
    "/Parent " + Ref(PagesId) + " /Resources << /Font << /F1 " + Ref(FontId)
    + " >> >> /MediaBox [0 0 " + width + " " + height + "] "
  }

  function Kids(n: nat): (ks: seq<string>)
    ensures |ks| == n
    ensures forall i :: 0 <= i < n ==> ks[i] == Ref(PageId(i))
  {
    seq(n, i requires 0 <= i < n => Ref(PageId(i)))
  }

  /** Line 94: the page tree, written once every page has its number. */
  function PagesObject(n: nat): string {
    "<< /Type /Pages /Count " + NatStr(n) + " /Kids [" + Join(Kids(n), " ") + "] >>"
  }

  /** Lines 86-92: a content stream and a page object per page, in page
      order. */
  function PageObjects(streams: seq<string>, width: string, height: string): (objs: seq<string>)
    ensures |objs| == 2 * |streams|
    ensures forall i :: 0 <= i < |streams| ==>
      objs[2 * i] == ContentObject(streams[i]) && objs[2 * i + 1] == PageObject(i, width, height)
    decreases |streams|
  {
    if |streams| == 0 then []
    else
      var n := |streams| - 1;
      assert forall i :: 0 <= i < n ==> streams[..n][i] == streams[i];
      PageObjects(streams[..n], width, height) + [ContentObject(streams[n]), PageObject(n, width, height)]
  }

  /** The objects in number order: object `k` is `objs[k - 1]`. */
  function Objects(streams: seq<string>, width: string, height: string): (objs: seq<string>)
    ensures |objs| == 3 + 2 * |streams|
    ensures objs[CatalogId - 1] == Catalog && objs[PagesId - 1] == PagesObject(|streams|) && objs[FontId - 1] == Font
    ensures forall i :: 0 <= i < |streams| ==> objs[ContentId(i) - 1] == ContentObject(streams[i])
    ensures forall i :: 0 <= i < |streams| ==> objs[PageId(i) - 1] == PageObject(i, width, height)
  {
    [Catalog, PagesObject(|streams|), Font] + PageObjects(streams, width, height)
  }

  /** Line 99: object `k + 1` as written into the file. */
  function ObjText(k: nat, obj: string): string {
    NatStr(k + 1) + " 0 obj\n" + obj + "\nendobj\n"
  }

  /** The first `n` objects as written. */
  function Body(objs: seq<string>, n: nat): string
    requires n <= |objs|
  {
    if n == 0 then "" else Body(objs, n - 1) + ObjText(n - 1, objs[n - 1])
  }

  /** Line 98: where each object starts. */
  function Offsets(objs: seq<string>): (offs: seq<nat>)
    ensures |offs| == |objs|
    ensures forall i :: 0 <= i < |objs| ==> offs[i] == |Header| + |Body(objs, i)|
  {
    seq(|objs|, i requires 0 <= i < |objs| => |Header| + |Body(objs, i)|)
  }

  /** Line 105: ten zero-padded digits, then the generation and `n`. */
  function XrefEntry(offset: nat): string {
    PadStart(NatStr(offset), 10, '0') + " 00000 n \n"
  }

  function XrefEntries(offsets: seq<nat>): string
    decreases |offsets|
  {
    if |offsets| == 0 then "" else XrefEntries(offsets[..|offsets| - 1]) + XrefEntry(offsets[|offsets| - 1])
  }

  const XrefKeyword: string := "xref\n0 "

  /** Line 103: the table covers the free object 0 and every object. */
  function XrefHead(n: nat): string {
    XrefKeyword + (NatStr(n + 1) + "\n0000000000 65535 f \n")
  }

  /** Line 107: the trailer dictionary, then where the table starts. */
  function Trailer(n: nat, xrefStart: nat): string {
    TrailerDict(n) + StartXref(xrefStart)
  }

  function TrailerDict(n: nat): string {
    "trailer\n<< /Size " + NatStr(n + 1) + " /Root " + Ref(CatalogId) + " >>\n"
  }

  function StartXref(xrefStart: nat): string {
    "startxref\n" + NatStr(xrefStart) + "\n%%EOF"
  }

  /** The file holding `objs`, as a reference for `BuildPdf`. */
  function DocumentOf(objs: seq<string>): string {
    var body := Header + Body(objs, |objs|);
    body + XrefHead(|objs|) + XrefEntries(Offsets(objs)) + Trailer(|objs|, |body|)
  }

  function Document(streams: seq<string>, width: string, height: string): string {
    DocumentOf(Objects(streams, width, height))
  }

  /** Lines 96-100: the header, then each object after recording the
      length written so far as its offset. */
  method WriteObjects(objs: seq<string>) returns (pdf: string, offsets: seq<nat>)
    ensures pdf == Header + Body(objs, |objs|)
    ensures offsets == Offsets(objs)
  {
    pdf := Header;
    offsets := [];
    var k := 0;
    while k < |objs|
      invariant 0 <= k <= |objs|
      invariant pdf == Header + Body(objs, k)
      invariant offsets == Offsets(objs)[..k]
    {
      assert Offsets(objs)[..k + 1] == Offsets(objs)[..k] + [|pdf|];
      offsets := offsets + [|pdf|];
      pdf := pdf + ObjText(k, objs[k]);
      k := k + 1;
    }
  }

  /** Lines 104-106: one entry per offset, in object order. */
  method WriteXrefEntries(offsets: seq<nat>) returns (table: string)
    ensures table == XrefEntries(offsets)
  {
    table := "";
    var j := 0;
    while j < |offsets|
      invariant 0 <= j <= |offsets|
      invariant table == XrefEntries(offsets[..j])
    {
      XrefEntriesSnoc(offsets, j);
      table := table + XrefEntry(offsets[j]);
      j := j + 1;
    }
    assert offsets[..j] == offsets;
  }

  /** `buildPdf(pages, pageSizePt)`. */
  method BuildPdf(streams: seq<string>, width: string, height: string) returns (pdf: string, offsets: seq<nat>)
    ensures pdf == Document(streams, width, height)
    ensures |offsets| == 3 + 2 * |streams|
    ensures forall i :: 0 <= i < |offsets| ==> StartsAt(pdf, offsets[i], NatStr(i + 1) + " 0 obj\n")
    ensures StartsWith(pdf, Header)
  {
    var objs := Objects(streams, width, height);
    var body;
    body, offsets := WriteObjects(objs);
    var table := WriteXrefEntries(offsets);
    pdf := body + XrefHead(|objs|) + table + Trailer(|objs|, |body|);
    forall i | 0 <= i < |offsets| ensures StartsAt(pdf, offsets[i], NatStr(i + 1) + " 0 obj\n") {
      ObjectAtOffset(objs, i);
    }
    assert body[..|Header|] == Header;
    StartsWithExtend(body, XrefHead(|objs|), Header);
    StartsWithExtend(body + XrefHead(|objs|), table, Header);
    StartsWithExtend(body + XrefHead(|objs|) + table, Trailer(|objs|, |body|), Header);
  }

  lemma XrefEntriesSnoc(offsets: seq<nat>, j: nat)
    requires j < |offsets|
    ensures XrefEntries(offsets[..j + 1]) == XrefEntries(offsets[..j]) + XrefEntry(offsets[j])
  {
    assert offsets[..j + 1][..j] == offsets[..j];
  }

  /** Object `i` begins where the first `i` objects end, inside every
      longer body. */
  lemma {:induction false} BodyPrefix(objs: seq<string>, i: nat, n: nat)
    requires i < n <= |objs|
    ensures StartsAt(Body(objs, n), |Body(objs, i)|, ObjText(i, objs[i]))
    decreases n
  {
    if n == i + 1 {
      StartsAtConcat(Body(objs, i), ObjText(i, objs[i]), 0, ObjText(i, objs[i]));
      assert StartsAt(ObjText(i, objs[i]), 0, ObjText(i, objs[i]));
    } else {
      BodyPrefix(objs, i, n - 1);
      StartsAtConcat(Body(objs, n - 1), ObjText(n - 1, objs[n - 1]), |Body(objs, i)|, ObjText(i, objs[i]));
    }
  }

  /** Every offset in the table points at its object's `n 0 obj` line. */
  lemma ObjectAtOffset(objs: seq<string>, i: nat)
    requires i < |objs|
    ensures StartsAt(DocumentOf(objs), Offsets(objs)[i], ObjText(i, objs[i]))
    ensures StartsAt(DocumentOf(objs), Offsets(objs)[i], NatStr(i + 1) + " 0 obj\n")
  {
    var n := |objs|;
    var body := Header + Body(objs, n);
    var o := ObjText(i, objs[i]);
    var at := |Header| + |Body(objs, i)|;
    BodyPrefix(objs, i, n);
    StartsAtConcat(Header, Body(objs, n), |Body(objs, i)|, o);
    StartsAtConcat(body, XrefHead(n), at, o);
    StartsAtConcat(body + XrefHead(n), XrefEntries(Offsets(objs)), at, o);
    StartsAtConcat(body + XrefHead(n) + XrefEntries(Offsets(objs)), Trailer(n, |body|), at, o);
    ObjHeaderAt(DocumentOf(objs), at, i, objs[i]);
  }

  /** Where an object's text occurs, its `n 0 obj` line occurs. */
  lemma ObjHeaderAt(s: string, at: int, k: nat, obj: string)
    requires StartsAt(s, at, ObjText(k, obj))
    ensures StartsAt(s, at, NatStr(k + 1) + " 0 obj\n")
  {
    StartsAtPrefix(s, at, NatStr(k + 1) + " 0 obj\n" + obj, "\nendobj\n");
    StartsAtPrefix(s, at, NatStr(k + 1) + " 0 obj\n", obj);
  }

  /** `startxref` names the offset at which the table begins. */
  lemma StartXrefPointsAtTable(objs: seq<string>)
    ensures var doc := DocumentOf(objs);
      exists start: nat :: StartsAt(doc, start, XrefKeyword) && EndsWith(doc, StartXref(start))
  {
    var n := |objs|;
    var body := Header + Body(objs, n);
    var doc := DocumentOf(objs);
    var entries := XrefEntries(Offsets(objs));
    ConcatEnds(XrefKeyword, NatStr(n + 1) + "\n0000000000 65535 f \n");
    StartsAtConcat(body, XrefHead(n), 0, XrefKeyword);
    StartsAtConcat(body + XrefHead(n), entries, |body|, XrefKeyword);
    StartsAtConcat(body + XrefHead(n) + entries, Trailer(n, |body|), |body|, XrefKeyword);
    ConcatEnds(TrailerDict(n), StartXref(|body|));
    EndsWithExtend(body + XrefHead(n) + entries, Trailer(n, |body|), StartXref(|body|));
    assert StartsAt(doc, |body|, XrefKeyword) && EndsWith(doc, StartXref(|body|));
  }

  /** With offsets below 10^10 every table entry is 20 characters long and
      its first ten read back as the offset. */
  lemma {:induction false} XrefEntriesReadBack(offsets: seq<nat>, i: nat)
    requires forall k :: 0 <= k < |offsets| ==> offsets[k] < Pow10(10)
    requires i < |offsets|
    ensures |XrefEntries(offsets)| == 20 * |offsets|
    ensures ParseNat(XrefEntries(offsets)[20 * i..20 * i + 10]) == offsets[i]
    decreases |offsets|
  {
    var init := offsets[..|offsets| - 1];
    var last := offsets[|offsets| - 1];
    var e := XrefEntry(last);
    NatStrLength(last, 10);
    assert |e| == 20;
    if i < |offsets| - 1 {
      XrefEntriesReadBack(init, i);
      assert XrefEntries(offsets)[20 * i..20 * i + 10] == XrefEntries(init)[20 * i..20 * i + 10];
    } else {
      if |init| > 0 {
        XrefEntriesReadBack(init, 0);
      }
      assert |XrefEntries(init)| == 20 * |init|;
      assert XrefEntries(offsets)[20 * i..20 * i + 10] == e[..10];
      assert e[..10] == PadStart(NatStr(last), 10, '0');
      PaddedRoundTrip(last, 10);
    }
  }

  /** The declared `/Length` reads back as the length of the stream that
      follows it. */
  lemma LengthReadsBack(stream: string)
    ensures exists len :: (ParseNat(len) == |stream|
      && ContentObject(stream) == "<< /Length " + len + " >>\nstream\n" + stream + "\nendstream")
  {
    NatStrRoundTrip(|stream|);
    var len := NatStr(|stream|);
    assert ParseNat(len) == |stream|;
  }

  /** The page tree lists every page, and each page's `/Contents` names
      the object that holds that page's stream. */
  lemma PageTreeResolves(streams: seq<string>, width: string, height: string, i: nat)
    requires i < |streams|
    ensures var objs := Objects(streams, width, height);
      && Contains(objs[PagesId - 1], Ref(PageId(i)))
      && StartsWith(objs[PageId(i) - 1], PageHead)
      && EndsWith(objs[PageId(i) - 1], "/Contents " + Ref(ContentId(i)) + " >>")
      && objs[ContentId(i) - 1] == ContentObject(streams[i])
  {
    var n := |streams|;
    var joined := Join(Kids(n), " ");
    JoinContains(Kids(n), " ", i);
    var pre := "<< /Type /Pages /Count " + NatStr(n) + " /Kids [";
    ContainsExtend(pre, joined, "] >>", Ref(PageId(i)));
    ContainsExtend("", pre + joined, "] >>", Ref(PageId(i)));
    assert PagesObject(n) == pre + joined + "] >>";
    var tail := "/Contents " + Ref(ContentId(i)) + " >>";
    Bracketed(PageHead, PageMiddle(width, height), tail);
  }
}
