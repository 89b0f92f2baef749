/**
 * `createTocPage` of src/lib/pdf-service.ts: builds a new document from the
 * source pages with the table of contents spliced in before page
 * `insertAtPage`, lays the outline out with `drawTocItems`, and finally turns
 * every queued link into a `/Link` annotation whose `Fit` destination is the
 * copied source page, looked up in the new page order.
 */
module TocPipeline {
  import opened Wrappers
  import opened Outline
  import opened PdfModel
  import opened TocLayout

  /** The default of `insertAtPage`: the table of contents goes before the second page. */
  const DefaultInsertAtPage: int := 2
  const TocHeading: string := "Table of Contents"

  /** What `createTocPage` throws on a source without pages (`allSourcePages[0]` is undefined). */
  const NoSizeReference: string := "Cannot read properties of undefined (reading 'getSize')"

  function Min(a: int, b: int): int { if a <= b then a else b }
  function Max(a: int, b: int): int { if a >= b then a else b }

  /** `Math.max(0, Math.min(insertAtPage - 1, n))`: the 0-based position of the first ToC page. */
  function InsertIndex(insertAtPage: int, n: nat): (k: nat)
    ensures k <= n
    ensures 1 <= insertAtPage <= n + 1 ==> k == insertAtPage - 1
    ensures insertAtPage < 1 ==> k == 0
    ensures insertAtPage > n + 1 ==> k == n
  {
    Max(0, Min(insertAtPage - 1, n))
  }

  /** `copyPages` of the source pages `lo..hi`, in order. */
  function Copies(source: seq<Size>, lo: nat, hi: nat): (r: seq<Page>)
    requires lo <= hi <= |source|
    ensures |r| == hi - lo
    ensures forall j :: lo <= j < hi ==> r[j - lo] == Page(source[j], SourcePage(j))
  {
    seq(hi - lo, m requires 0 <= m < hi - lo => Page(source[lo + m], SourcePage(lo + m)))
  }

  /** The ToC takes its size from the second source page when there is one, else the first. */
  function SizeReference(source: seq<Size>): Size
    requires |source| > 0
  {
    if |source| > 1 then source[1] else source[0]
  }

  /** Where a 1-based `targetPageNum` of the source lands in the new document, clamped to its pages. */
  function ResolveTarget(targetPageNum: int, insertIndex: nat, tocPageCount: nat, total: nat): (idx: nat)
    requires total >= 1
    ensures idx < total
  {
    var t := targetPageNum - 1;
    var mapped := if t < insertIndex then t else t + tocPageCount;
    Min(Max(0, mapped), total - 1)
  }

  /** The annotation built for a queued link. */
  function LinkFor(pa: PendingAnnot, insertIndex: nat, tocPageCount: nat, total: nat): Link
    requires total >= 1
  {
    Link(pa.rect, Fit(ResolveTarget(pa.targetPageNum, insertIndex, tocPageCount, total)))
  }

  /** `/Annots` after attaching the queued links in order. */
  function AttachAll(annots: map<nat, seq<Link>>, pending: seq<PendingAnnot>, insertIndex: nat, tocPageCount: nat, total: nat): map<nat, seq<Link>>
    requires total >= 1
  {
    if |pending| == 0 then annots
    else
      var pa := pending[|pending| - 1];
      PushLink(AttachAll(annots, pending[..|pending| - 1], insertIndex, tocPageCount, total), pa.tocPage,
               LinkFor(pa, insertIndex, tocPageCount, total))
  }

  /** The links queued on ToC page `p`, in queue order. */
  function LinksOn(pending: seq<PendingAnnot>, p: nat, insertIndex: nat, tocPageCount: nat, total: nat): seq<Link>
    requires total >= 1
  {
    if |pending| == 0 then []
    else
      var pa := pending[|pending| - 1];
      LinksOn(pending[..|pending| - 1], p, insertIndex, tocPageCount, total)
      + (if pa.tocPage == p then [LinkFor(pa, insertIndex, tocPageCount, total)] else [])
  }

  function HeadingRun(page: nat, size: Size): TextRun
  {
    TextRun(page, TocHeading, MarginX, size.height * TitleYStartRatio, TitleFontSize, Bold, None)
  }

  function EnvFor(source: seq<Size>, config: TocConfig, widthOf: Measure): Env
    requires |source| > 0
  {
    Env(SizeReference(source).width, SizeReference(source).height, config, widthOf)
  }

  /** The document just before the outline is drawn: the leading copies, the first ToC page and its heading. */
  function Start(source: seq<Size>, insertAtPage: int): Canvas
    requires |source| > 0
  {
    var k := InsertIndex(insertAtPage, |source|);
    Canvas(Copies(source, 0, k) + [Page(SizeReference(source), TocSheet)], [HeadingRun(k, SizeReference(source))], [])
  }

  /**
   * The shape `drawTocItems` leaves behind: the leading copies, then ToC sheets
   * of the reference size only, with every queued link on one of those sheets.
   */
  predicate LaidOut(source: seq<Size>, k: nat, laid: Canvas)
  {
    && 0 < |source| && k <= |source| && k < |laid.pages|
    && laid.pages[..k] == Copies(source, 0, k)
    && (forall q :: k <= q < |laid.pages| ==> laid.pages[q] == Page(SizeReference(source), TocSheet))
    && (forall q :: 0 <= q < |laid.pending| ==> k <= laid.pending[q].tocPage < |laid.pages|)
  }

  /** Whatever the layout adds to the starting document keeps that shape. */
  lemma StartLaidOut(source: seq<Size>, insertAtPage: int, config: TocConfig, widthOf: Measure, laid: Canvas, cur: Cursor)
    requires |source| > 0
    requires Extends(EnvFor(source, config, widthOf), Start(source, insertAtPage), laid)
    requires Within(laid, cur, InsertIndex(insertAtPage, |source|))
    ensures LaidOut(source, InsertIndex(insertAtPage, |source|), laid)
  {
    var k := InsertIndex(insertAtPage, |source|);
    var start := Start(source, insertAtPage);
    assert laid.pages[..k] == start.pages[..k];
    forall q | k <= q < |laid.pages|
      ensures laid.pages[q] == Page(SizeReference(source), TocSheet)
    {
      if q == k {
        assert laid.pages[q] == start.pages[k];
      }
    }
  }

  /** The document once `drawTocItems` has returned. */
  function Laid(source: seq<Size>, items: seq<TocItem>, insertAtPage: int, config: TocConfig, widthOf: Measure): (laid: Canvas)
    requires |source| > 0
    ensures LaidOut(source, InsertIndex(insertAtPage, |source|), laid)
    ensures |laid.pending| == |PreOrder(items)|
  {
    var k := InsertIndex(insertAtPage, |source|);
    var env := EnvFor(source, config, widthOf);
    var start := Start(source, insertAtPage);
    var cur := Cursor(k, SizeReference(source).height * TitleYStartRatio - TitleMarginBottom);
    var r := LayoutFrom(env, items, 0, "", 0, start, cur);
    LayoutExtends(env, items, 0, "", 0, start, cur);
    LayoutTargets(env, items, 0, "", 0, start, cur);
    StartReady(source, insertAtPage);
    LayoutWithin(env, items, 0, "", 0, start, cur, k);
    StartLaidOut(source, insertAtPage, config, widthOf, r.0, r.1);
    assert items[0..] == items;
    r.0
  }

  /** The finished document and the number of ToC pages. */
  datatype Built = Built(pages: seq<Page>, runs: seq<TextRun>, annots: map<nat, seq<Link>>, tocPageCount: nat)

  /** The tail of `createTocPage` on a laid-out document: copy the remaining source pages, then attach the links. */
  function Finish(source: seq<Size>, k: nat, laid: Canvas): Built
    requires k <= |source| && k < |laid.pages|
  {
    var tocPageCount := |laid.pages| - k;
    var pages := laid.pages + Copies(source, k, |source|);
    Built(pages, laid.runs, AttachAll(map[], laid.pending, k, tocPageCount, |pages|), tocPageCount)
  }

  /** `createTocPage` as a function of its inputs; it throws when the source has no pages. */
  function TocDocument(source: seq<Size>, items: seq<TocItem>, insertAtPage: int, config: TocConfig, widthOf: Measure): Result<Built, string>
  {
    if |source| == 0 then Failure(NoSizeReference)
    else Success(Finish(source, InsertIndex(insertAtPage, |source|), Laid(source, items, insertAtPage, config, widthOf)))
  }

  /** The result of `createTocPage`. */
  datatype TocResult = TocResult(newDoc: PdfDoc, tocPageCount: nat)

  /** `copiedPages.forEach((page) => newDoc.addPage(page))`. */
  method CopyPages(doc: PdfDoc, source: seq<Size>, lo: nat, hi: nat)
    requires lo <= hi <= |source|
    modifies doc
    ensures doc.pages == old(doc.pages) + Copies(source, lo, hi)
    ensures doc.runs == old(doc.runs) && doc.annots == old(doc.annots)
  {
    for j := lo to hi
      invariant doc.pages == old(doc.pages) + Copies(source, lo, j)
      invariant doc.runs == old(doc.runs) && doc.annots == old(doc.annots)
    {
      var _ := doc.AddPage(Page(source[j], SourcePage(j)));
      assert Copies(source, lo, j + 1) == Copies(source, lo, j) + [Page(source[j], SourcePage(j))];
    }
  }

  /** The final `for (const pa of pendingAnnots)` loop. */
  method AttachLinks(doc: PdfDoc, pending: seq<PendingAnnot>, insertIndex: nat, tocPageCount: nat)
    requires |doc.pages| >= 1
    modifies doc
    ensures doc.pages == old(doc.pages) && doc.runs == old(doc.runs)
    ensures doc.annots == AttachAll(old(doc.annots), pending, insertIndex, tocPageCount, |doc.pages|)
  {
    for m := 0 to |pending|
      invariant doc.pages == old(doc.pages) && doc.runs == old(doc.runs)
      invariant doc.annots == AttachAll(old(doc.annots), pending[..m], insertIndex, tocPageCount, |doc.pages|)
    {
      var pa := pending[m];
      var targetIndex := ResolveTarget(pa.targetPageNum, insertIndex, tocPageCount, |doc.pages|);
      doc.PushAnnot(pa.tocPage, Link(pa.rect, Fit(targetIndex)));
      assert pending[..m + 1][..m] == pending[..m];
    }
    assert pending[..|pending|] == pending;
  }

  /** The part of `createTocPage` before `drawTocItems`: the leading copies, the first ToC page and its heading. */
  method OpenToc(source: seq<Size>, insertAtPage: int) returns (newDoc: PdfDoc, tocPage: nat, yOffset: real)
    requires |source| > 0
    ensures fresh(newDoc)
    ensures Canvas(newDoc.pages, newDoc.runs, []) == Start(source, insertAtPage) && newDoc.annots == map[]
    ensures tocPage == InsertIndex(insertAtPage, |source|)
    ensures yOffset == SizeReference(source).height * TitleYStartRatio - TitleMarginBottom
  {
    var insertIndex := InsertIndex(insertAtPage, |source|);
    newDoc := new PdfDoc();
    CopyPages(newDoc, source, 0, insertIndex);
    var size := if |source| > 1 then source[1] else source[0];
    tocPage := newDoc.AddPage(Page(size, TocSheet));
    yOffset := size.height * TitleYStartRatio;
    newDoc.DrawText(TextRun(tocPage, TocHeading, MarginX, yOffset, TitleFontSize, Bold, None));
    yOffset := yOffset - TitleMarginBottom;
  }

  /** The tail of `createTocPage`: copy the remaining source pages, then attach the queued links. */
  method CloseToc(doc: PdfDoc, source: seq<Size>, k: nat, pending: seq<PendingAnnot>)
    requires k <= |source| && k < |doc.pages| && doc.annots == map[]
    modifies doc
    ensures Built(doc.pages, doc.runs, doc.annots, |old(doc.pages)| - k) == Finish(source, k, Canvas(old(doc.pages), old(doc.runs), pending))
  {
    var tocPageCount := |doc.pages| - k;
    CopyPages(doc, source, k, |source|);
    AttachLinks(doc, pending, k, tocPageCount);
  }

  /** `createTocPage(sourceDoc, items, insertAtPage)` with the source given by its page sizes. */
  method CreateTocPage(source: seq<Size>, items: seq<TocItem>, config: TocConfig, widthOf: Measure, insertAtPage: int := DefaultInsertAtPage)
    returns (r: Result<TocResult, string>)
    ensures r.Success? <==> |source| > 0
    ensures r.Failure? ==> TocDocument(source, items, insertAtPage, config, widthOf) == Failure(r.error)
    ensures r.Success? ==> fresh(r.value.newDoc)
    ensures r.Success? ==>
      var d := r.value.newDoc;
      TocDocument(source, items, insertAtPage, config, widthOf) == Success(Built(d.pages, d.runs, d.annots, r.value.tocPageCount))
  {
    var n := |source|;
    if n == 0 {
      return Failure(NoSizeReference);
    }
    var insertIndex := InsertIndex(insertAtPage, n);
    var newDoc, tocPage, yOffset := OpenToc(source, insertAtPage);
    var size := if n > 1 then source[1] else source[0];
    var ctx := new RenderContext(newDoc, Env(size.width, size.height, config, widthOf));
    var _, _ := DrawTocItems(tocPage, items, 0, yOffset, ctx, "");
    ghost var laid := Laid(source, items, insertAtPage, config, widthOf);
    assert ctx.State() == laid;
    var tocPageCount := |newDoc.pages| - insertIndex;
    CloseToc(newDoc, source, insertIndex, ctx.pendingAnnots);
    r := Success(TocResult(newDoc, tocPageCount));
  }

  // ----- what `createTocPage` promises -----

  /** Where source page `j` (0-based) ends up once `tocPageCount` ToC pages are spliced in at `insertIndex`. */
  function Placed(j: nat, insertIndex: nat, tocPageCount: nat): nat
  {
    if j < insertIndex then j else j + tocPageCount
  }

  /** `pages` is `source` with `tocPageCount` ToC sheets inserted before source page `insertIndex`. */
  predicate Spliced(pages: seq<Page>, source: seq<Size>, insertIndex: nat, tocPageCount: nat)
  {
    && insertIndex <= |source|
    && |pages| == |source| + tocPageCount
    && (forall j :: 0 <= j < |source| ==> pages[Placed(j, insertIndex, tocPageCount)] == Page(source[j], SourcePage(j)))
    && (forall q :: insertIndex <= q < insertIndex + tocPageCount ==> pages[q].origin == TocSheet)
  }

  /** `Finish` puts every source page once, in order, around the ToC sheets it was given. */
  lemma FinishLayout(source: seq<Size>, k: nat, laid: Canvas)
    requires LaidOut(source, k, laid)
    ensures var b := Finish(source, k, laid);
      && b.tocPageCount >= 1
      && Spliced(b.pages, source, k, b.tocPageCount)
      && forall q :: k <= q < k + b.tocPageCount ==> b.pages[q] == Page(SizeReference(source), TocSheet)
  {
    var b := Finish(source, k, laid);
    var c := b.tocPageCount;
    forall j | 0 <= j < |source|
      ensures b.pages[Placed(j, k, c)] == Page(source[j], SourcePage(j))
    {
      if j < k {
        assert b.pages[j] == laid.pages[..k][j];
      } else {
        assert b.pages[j + c] == Copies(source, k, |source|)[j - k];
      }
    }
  }

  /**
   * The new document holds every source page once, in order, with at least one
   * ToC page, all of the reference size, spliced in at the clamped insert position.
   */
  lemma TocPageLayout(source: seq<Size>, items: seq<TocItem>, insertAtPage: int, config: TocConfig, widthOf: Measure)
    requires |source| > 0
    ensures var b := TocDocument(source, items, insertAtPage, config, widthOf).value;
      var k := InsertIndex(insertAtPage, |source|);
      && b.tocPageCount >= 1
      && Spliced(b.pages, source, k, b.tocPageCount)
      && forall q :: k <= q < k + b.tocPageCount ==> b.pages[q] == Page(SizeReference(source), TocSheet)
  {
    FinishLayout(source, InsertIndex(insertAtPage, |source|), Laid(source, items, insertAtPage, config, widthOf));
  }

  /**
   * A link to a page of the source lands on that page's copy; a page number
   * below 1 falls back to the first page and one past the end to the last page.
   */
  lemma ResolveTargetLands(pages: seq<Page>, source: seq<Size>, insertIndex: nat, tocPageCount: nat, targetPageNum: int)
    requires Spliced(pages, source, insertIndex, tocPageCount) && |pages| >= 1
    ensures var idx := ResolveTarget(targetPageNum, insertIndex, tocPageCount, |pages|);
      && (1 <= targetPageNum <= |source| ==> pages[idx] == Page(source[targetPageNum - 1], SourcePage(targetPageNum - 1)))
      && (targetPageNum < 1 ==> idx == 0)
      && (targetPageNum > |source| ==> idx == |pages| - 1)
  {
    if 1 <= targetPageNum <= |source| {
      assert ResolveTarget(targetPageNum, insertIndex, tocPageCount, |pages|) == Placed(targetPageNum - 1, insertIndex, tocPageCount);
    }
  }

  lemma {:induction false} AttachAllGroups(pending: seq<PendingAnnot>, insertIndex: nat, tocPageCount: nat, total: nat, p: nat)
    requires total >= 1
    ensures var a := AttachAll(map[], pending, insertIndex, tocPageCount, total);
      && (p in a <==> LinksOn(pending, p, insertIndex, tocPageCount, total) != [])
      && (p in a ==> a[p] == LinksOn(pending, p, insertIndex, tocPageCount, total))
    decreases |pending|
  {
    if |pending| > 0 {
      AttachAllGroups(pending[..|pending| - 1], insertIndex, tocPageCount, total, p);
    }
  }

  lemma {:induction false} LinksOnFrom(pending: seq<PendingAnnot>, insertIndex: nat, tocPageCount: nat, total: nat, p: nat, lo: nat, hi: nat)
    requires total >= 1
    requires forall q :: 0 <= q < |pending| ==> lo <= pending[q].tocPage < hi
    ensures LinksOn(pending, p, insertIndex, tocPageCount, total) != [] ==> lo <= p < hi
    decreases |pending|
  {
    if |pending| > 0 {
      LinksOnFrom(pending[..|pending| - 1], insertIndex, tocPageCount, total, p, lo, hi);
    }
  }

  lemma {:induction false} LinksOnHolds(pending: seq<PendingAnnot>, insertIndex: nat, tocPageCount: nat, total: nat, q: nat)
    requires total >= 1 && q < |pending|
    ensures LinkFor(pending[q], insertIndex, tocPageCount, total) in LinksOn(pending, pending[q].tocPage, insertIndex, tocPageCount, total)
    decreases |pending|
  {
    if q < |pending| - 1 {
      LinksOnHolds(pending[..|pending| - 1], insertIndex, tocPageCount, total, q);
    }
  }

  /** The starting point of the layout satisfies the layout's invariants. */
  lemma StartReady(source: seq<Size>, insertAtPage: int)
    requires |source| > 0
    ensures var k := InsertIndex(insertAtPage, |source|);
      var cur := Cursor(k, SizeReference(source).height * TitleYStartRatio - TitleMarginBottom);
      Ready(Start(source, insertAtPage), cur) && Within(Start(source, insertAtPage), cur, k)
  {
  }

  /** `Finish` gives each ToC page exactly the links queued on it, in queue order, and no other page any. */
  lemma FinishAnnotations(source: seq<Size>, k: nat, laid: Canvas, p: nat)
    requires LaidOut(source, k, laid)
    ensures var b := Finish(source, k, laid);
      var links := LinksOn(laid.pending, p, k, b.tocPageCount, |b.pages|);
      && (p in b.annots <==> links != [])
      && (p in b.annots ==> b.annots[p] == links && k <= p < k + b.tocPageCount)
  {
    var b := Finish(source, k, laid);
    AttachAllGroups(laid.pending, k, b.tocPageCount, |b.pages|, p);
    LinksOnFrom(laid.pending, k, b.tocPageCount, |b.pages|, p, k, |laid.pages|);
  }

  /**
   * Each ToC page's `/Annots` holds exactly the links drawn on it, in the order
   * they were drawn, and only ToC pages receive links.
   */
  lemma TocAnnotations(source: seq<Size>, items: seq<TocItem>, insertAtPage: int, config: TocConfig, widthOf: Measure, p: nat)
    requires |source| > 0
    ensures var b := TocDocument(source, items, insertAtPage, config, widthOf).value;
      var k := InsertIndex(insertAtPage, |source|);
      var links := LinksOn(Laid(source, items, insertAtPage, config, widthOf).pending, p, k, b.tocPageCount, |b.pages|);
      && (p in b.annots <==> links != [])
      && (p in b.annots ==> b.annots[p] == links && k <= p < k + b.tocPageCount)
  {
    FinishAnnotations(source, InsertIndex(insertAtPage, |source|), Laid(source, items, insertAtPage, config, widthOf), p);
  }

  /** One link per outline entry, in pre-order, to the entry's page plus the configured offset. */
  lemma TocLinkTargets(source: seq<Size>, items: seq<TocItem>, insertAtPage: int, config: TocConfig, widthOf: Measure)
    requires |source| > 0
    ensures PendingTargets(Laid(source, items, insertAtPage, config, widthOf).pending) == LinkTargets(PreOrder(items), PageOffset(config))
  {
    var k := InsertIndex(insertAtPage, |source|);
    LayoutTargets(EnvFor(source, config, widthOf), items, 0, "", 0, Start(source, insertAtPage),
                  Cursor(k, SizeReference(source).height * TitleYStartRatio - TitleMarginBottom));
    assert items[0..] == items;
  }

  /** With positive line heights the links are queued in reading order. */
  lemma TocReadingOrder(source: seq<Size>, items: seq<TocItem>, insertAtPage: int, config: TocConfig, widthOf: Measure)
    requires |source| > 0 && LinesAdvance(config)
    ensures InReadingOrder(Laid(source, items, insertAtPage, config, widthOf).pending)
  {
    var k := InsertIndex(insertAtPage, |source|);
    StartReady(source, insertAtPage);
    LayoutKeepsOrder(EnvFor(source, config, widthOf), items, 0, "", 0, Start(source, insertAtPage),
                     Cursor(k, SizeReference(source).height * TitleYStartRatio - TitleMarginBottom));
  }

  /** A queued link whose target is a source page ends up on its ToC page and opens that page's copy. */
  lemma FinishLinkLands(source: seq<Size>, k: nat, laid: Canvas, q: nat)
    requires LaidOut(source, k, laid) && q < |laid.pending|
    requires 1 <= laid.pending[q].targetPageNum <= |source|
    ensures var b := Finish(source, k, laid);
      var pa := laid.pending[q];
      var t := pa.targetPageNum;
      var link := LinkFor(pa, k, b.tocPageCount, |b.pages|);
      && pa.tocPage in b.annots && link in b.annots[pa.tocPage]
      && b.pages[link.dest.page] == Page(source[t - 1], SourcePage(t - 1))
  {
    var b := Finish(source, k, laid);
    var pa := laid.pending[q];
    LinksOnHolds(laid.pending, k, b.tocPageCount, |b.pages|, q);
    FinishAnnotations(source, k, laid, pa.tocPage);
    FinishLayout(source, k, laid);
    ResolveTargetLands(b.pages, source, k, b.tocPageCount, pa.targetPageNum);
  }

  /**
   * End to end: the `q`-th entry in pre-order gets a link on the ToC page it was
   * drawn on, and when its shifted page number is a page of the source, the link
   * opens that page's copy in the new document.
   */
  lemma EntryLinksToItsPage(source: seq<Size>, items: seq<TocItem>, insertAtPage: int, config: TocConfig, widthOf: Measure, q: nat)
    requires |source| > 0 && q < |PreOrder(items)|
    requires 1 <= PreOrder(items)[q].to + PageOffset(config) <= |source|
    ensures var b := TocDocument(source, items, insertAtPage, config, widthOf).value;
      var pa := Laid(source, items, insertAtPage, config, widthOf).pending[q];
      var t := PreOrder(items)[q].to + PageOffset(config);
      var link := LinkFor(pa, InsertIndex(insertAtPage, |source|), b.tocPageCount, |b.pages|);
      && pa.tocPage in b.annots && link in b.annots[pa.tocPage]
      && b.pages[link.dest.page] == Page(source[t - 1], SourcePage(t - 1))
  {
    var laid := Laid(source, items, insertAtPage, config, widthOf);
    TocLinkTargets(source, items, insertAtPage, config, widthOf);
    assert PendingTargets(laid.pending)[q] == LinkTargets(PreOrder(items), PageOffset(config))[q];
    FinishLinkLands(source, InsertIndex(insertAtPage, |source|), laid, q);
  }
}
