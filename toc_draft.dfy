/**
 * The earlier table-of-contents generator of src/lib/pdf.service.ts. It puts
 * the ToC in front of all source pages, uses fixed Helvetica sizes, no
 * numbering and no page offset, and attaches each link as soon as its entry is
 * drawn, with an `XYZ` destination on the copied page.
 *
 * Its recursive `drawTocItems` returns only the vertical offset, so after a
 * subtree has spilled onto a new page the parent keeps drawing on its old page.
 * `DraftFrom` models both the code as written (`AsWritten`) and the
 * evidently intended behaviour (`Corrected`), which also carries the page out
 * of the recursion and clamps link targets from below as well as from above.
 */
module TocDraft {
  import opened Wrappers
  import opened JsText
  import opened Outline
  import opened PdfModel
  import opened TocLayout
  import opened TocPipeline

  const DraftMarginBottom: real := 50.0
  const DraftMarginX: real := 50.0
  const DraftHeadingGap: real := 38.0
  const DraftFirstLevelNudge: real := 6.0
  const DotsRightEdge: real := 65.0

  /** `pages[idx]` is undefined for a negative index, and reading `.ref` from it throws. */
  const NoTargetPage: string := "Cannot read properties of undefined (reading 'ref')"

  datatype DraftMode = AsWritten | Corrected

  /** Page width and height of the first source page, the copied pages' sizes, and text measurement. */
  datatype DraftEnv = DraftEnv(pageWidth: real, pageHeight: real, copies: seq<Size>, widthOf: Measure)

  /** The document while the draft draws: pages, text and each page's `/Annots`. */
  datatype DraftCanvas = DraftCanvas(pages: seq<Page>, runs: seq<TextRun>, annots: map<nat, seq<Link>>)

  function DraftFontSize(level: nat): real { if level == 0 then 11.0 else 9.0 }

  /** `fontSize + (isFirstLevel ? 8 : 6)`. */
  function DraftLineSpacing(level: nat): real { DraftFontSize(level) + if level == 0 then 8.0 else 6.0 }

  /**
   * The copied page a link to 1-based `pageNum` opens. As written, the index
   * `min(n - 1, pageNum - 1)` is negative for `pageNum < 1` and the lookup
   * throws; corrected, it is clamped to the first page.
   */
  function DraftTarget(mode: DraftMode, copies: seq<Size>, pageNum: int): (r: Result<nat, string>)
    ensures r.Success? ==> r.value < |copies|
    ensures r.Success? && 1 <= pageNum <= |copies| ==> r.value == pageNum - 1
    ensures r.Success? && pageNum > |copies| ==> r.value == |copies| - 1
    ensures mode == Corrected && r.Success? && pageNum < 1 ==> r.value == 0
    ensures mode == AsWritten ==> (r.Success? <==> |copies| > 0 && pageNum >= 1)
    ensures mode == Corrected ==> (r.Success? <==> |copies| > 0)
  {
    var idx := if mode == AsWritten then Min(|copies| - 1, pageNum - 1) else Min(Max(0, pageNum - 1), |copies| - 1);
    if idx < 0 then Failure(NoTargetPage) else Success(idx)
  }

  /** The link annotation `createLinkAnnotation` builds for a copied page. */
  function DraftLink(copies: seq<Size>, rect: Rect, j: nat): Link
    requires j < |copies|
  {
    Link(rect, CopyXyz(j, copies[j].height))
  }

  /** The text of one draft entry line at baseline `y`: title, dot leader on the top level, page number. */
  function DraftRuns(env: DraftEnv, page: nat, level: nat, title: string, pageNum: string, y: real): seq<TextRun>
  {
    var indent := level as real * IndentPerLevel;
    [TextRun(page, title, DraftMarginX + indent, y, DraftFontSize(level), FontFor(level), Some(env.pageWidth - 100.0 - indent))]
    + DraftLeader(env, page, level, title, y)
    + [DraftPageNumberRun(env, page, level, pageNum, y)]
  }

  /** Only top-level entries get a dot leader, one point below the baseline. */
  function DraftLeader(env: DraftEnv, page: nat, level: nat, title: string, y: real): seq<TextRun>
  {
    if level == 0 then DotRuns(page, ".", DraftDotsStart(title), env.pageWidth - DotsRightEdge, y - 1.0, DraftFontSize(0) * DotSizeRatio)
    else []
  }

  /** The page number, right-aligned 50 points from the right edge. */
  function DraftPageNumberRun(env: DraftEnv, page: nat, level: nat, pageNum: string, y: real): TextRun
  {
    var fontSize := DraftFontSize(level);
    TextRun(page, pageNum, env.pageWidth - 50.0 - env.widthOf(FontFor(level), pageNum, fontSize), y, fontSize, FontFor(level), None)
  }

  /** Top-level dots start after an estimate of the title's width: half the font size per character of the title. */
  function DraftDotsStart(title: string): real
  {
    DraftMarginX + |title| as real * (DraftFontSize(0) * 0.5) + 10.0
  }

  /** One pass of the loop body before the recursion: break, draw, link, move down. Gives the canvas, page and offset. */
  function DraftEntry(mode: DraftMode, env: DraftEnv, item: TocItem, level: nat, cv: DraftCanvas, page: nat, y: real)
    : Result<(DraftCanvas, nat, real), string>
  {
    var broken := DraftBreak(env, cv, page, y);
    DraftPlace(mode, env, item, level, broken.0, broken.1, broken.2)
  }

  /** `if (yOffset < 50)`: below the bottom margin, a fresh page and the offset near its top. */
  function DraftBreak(env: DraftEnv, cv: DraftCanvas, page: nat, y: real): (DraftCanvas, nat, real)
  {
    if y < DraftMarginBottom then
      (cv.(pages := cv.pages + [Page(Size(env.pageWidth, env.pageHeight), TocSheet)]), |cv.pages|, env.pageHeight - DraftMarginBottom)
    else (cv, page, y)
  }

  /** The entry's line and link once the page break is settled. */
  function DraftPlace(mode: DraftMode, env: DraftEnv, item: TocItem, level: nat, cv: DraftCanvas, page: nat, y: real)
    : Result<(DraftCanvas, nat, real), string>
  {
    var y2 := if level == 0 then y - DraftFirstLevelNudge else y;
    var titleX := DraftMarginX + level as real * IndentPerLevel;
    var target := DraftTarget(mode, env.copies, item.to);
    if target.Failure? then Failure(target.error)
    else
      var link := DraftLink(env.copies, Rect(titleX, y2 - AnnotYPadding, env.pageWidth - 50.0, y2 + DraftFontSize(level)), target.value);
      Success((DraftCanvas(cv.pages, cv.runs + DraftRuns(env, page, level, item.title, IntToString(item.to), y2), PushLink(cv.annots, page, link)),
               page, y2 - DraftLineSpacing(level)))
  }

  /** The draft `drawTocItems` from the `i`-th sibling on. The page it gives back is the loop's own page variable. */
  function DraftFrom(mode: DraftMode, env: DraftEnv, items: seq<TocItem>, level: nat, i: nat, cv: DraftCanvas, page: nat, y: real)
    : Result<(DraftCanvas, nat, real), string>
    requires i <= |items|
    decreases items, |items| - i
  {
    if i == |items| then Success((cv, page, y))
    else
      var drawn := DraftEntry(mode, env, items[i], level, cv, page, y);
      if drawn.Failure? then Failure(drawn.error)
      else
        var sub := DraftSubtree(mode, env, items[i], level, drawn.value.0, drawn.value.1, drawn.value.2);
        if sub.Failure? then Failure(sub.error)
        else
          // As written, only the offset comes back from the recursion; the page stays the parent's.
          var nextPage := if mode == Corrected then sub.value.1 else drawn.value.1;
          DraftFrom(mode, env, items, level, i + 1, sub.value.0, nextPage, sub.value.2)
  }

  function DraftSubtree(mode: DraftMode, env: DraftEnv, item: TocItem, level: nat, cv: DraftCanvas, page: nat, y: real)
    : Result<(DraftCanvas, nat, real), string>
    decreases item, 0
  {
    if |item.children| > 0 then DraftFrom(mode, env, item.children, level + 1, 0, cv, page, y)
    else Success((cv, page, y))
  }

  lemma DraftStep(mode: DraftMode, env: DraftEnv, items: seq<TocItem>, level: nat, i: nat, cv: DraftCanvas, page: nat, y: real)
    requires i < |items|
    ensures var drawn := DraftEntry(mode, env, items[i], level, cv, page, y);
      && (drawn.Failure? ==> DraftFrom(mode, env, items, level, i, cv, page, y) == Failure(drawn.error))
      && (drawn.Success? ==>
            var sub := DraftSubtree(mode, env, items[i], level, drawn.value.0, drawn.value.1, drawn.value.2);
            && (sub.Failure? ==> DraftFrom(mode, env, items, level, i, cv, page, y) == Failure(sub.error))
            && (sub.Success? ==>
                  (DraftFrom(mode, env, items, level, i, cv, page, y)
                   == DraftFrom(mode, env, items, level, i + 1, sub.value.0,
                                if mode == Corrected then sub.value.1 else drawn.value.1, sub.value.2))))
  {
  }

  /**
   * One draft entry: below the bottom margin it moves to a new page whose
   * offset starts 50 below the top; a top-level line then drops by its 6-point
   * nudge plus 19, a deeper line by 15. It throws exactly when the link
   * lookup does.
   */
  lemma DraftLineAdvance(mode: DraftMode, env: DraftEnv, item: TocItem, level: nat, cv: DraftCanvas, page: nat, y: real)
    ensures var r := DraftEntry(mode, env, item, level, cv, page, y);
      var low := y < DraftMarginBottom;
      var top := if low then env.pageHeight - DraftMarginBottom else y;
      && (r.Failure? <==> DraftTarget(mode, env.copies, item.to).Failure?)
      && (r.Success? ==>
            && r.value.1 == (if low then |cv.pages| else page)
            && r.value.2 == top - (if level == 0 then 25.0 else 15.0)
            && r.value.0.pages == (if low then cv.pages + [Page(Size(env.pageWidth, env.pageHeight), TocSheet)] else cv.pages))
  {
  }

  /** The heading page the draft starts from: one ToC page the size of the first source page, with its heading. */
  function DraftStart(source: seq<Size>): DraftCanvas
    requires |source| > 0
  {
    DraftCanvas([Page(source[0], TocSheet)],
                 [TextRun(0, TocHeading, DraftMarginX, source[0].height / 3.0 * 2.0, TitleFontSize, Bold, None)], map[])
  }

  function DraftEnvFor(source: seq<Size>, widthOf: Measure): DraftEnv
    requires |source| > 0
  {
    DraftEnv(source[0].width, source[0].height, source, widthOf)
  }

  /** The draft `drawTocItems` from just below the heading of the first ToC page. */
  function DraftLaid(mode: DraftMode, source: seq<Size>, items: seq<TocItem>, widthOf: Measure): Result<(DraftCanvas, nat, real), string>
    requires |source| > 0
  {
    DraftFrom(mode, DraftEnvFor(source, widthOf), items, 0, 0, DraftStart(source), 0, source[0].height / 3.0 * 2.0 - DraftHeadingGap)
  }

  /** Every source page copied after the ToC pages. */
  function DraftFinish(source: seq<Size>, laid: DraftCanvas): DraftCanvas
  {
    DraftCanvas(laid.pages + Copies(source, 0, |source|), laid.runs, laid.annots)
  }

  /** The draft `createTocPage`: ToC pages first, then every source page; it throws on an empty source or a failed link. */
  function DraftDocument(mode: DraftMode, source: seq<Size>, items: seq<TocItem>, widthOf: Measure): Result<DraftCanvas, string>
  {
    if |source| == 0 then Failure(NoSizeReference)
    else
      var laid := DraftLaid(mode, source, items, widthOf);
      if laid.Failure? then Failure(laid.error)
      else Success(DraftFinish(source, laid.value.0))
  }

  function DraftState(doc: PdfDoc): DraftCanvas
    reads doc
  {
    DraftCanvas(doc.pages, doc.runs, doc.annots)
  }

  /** `createLinkAnnotation`: looks the copied page up and appends the link to the page's `/Annots`. */
  method CreateLinkAnnotation(doc: PdfDoc, page: nat, pageNum: int, copies: seq<Size>, rect: Rect) returns (r: Result<nat, string>)
    modifies doc
    ensures r == DraftTarget(AsWritten, copies, pageNum)
    ensures doc.pages == old(doc.pages) && doc.runs == old(doc.runs)
    ensures r.Success? ==> doc.annots == PushLink(old(doc.annots), page, DraftLink(copies, rect, r.value))
  {
    var idx := Min(|copies| - 1, pageNum - 1);
    if idx < 0 {
      return Failure(NoTargetPage);
    }
    doc.PushAnnot(page, Link(rect, CopyXyz(idx, copies[idx].height)));
    r := Success(idx);
  }

  /** The three kinds of `drawText` call for one draft entry. */
  method DraftDrawLine(doc: PdfDoc, env: DraftEnv, page: nat, level: nat, title: string, pageNum: string, y: real)
    modifies doc
    ensures doc.runs == old(doc.runs) + DraftRuns(env, page, level, title, pageNum, y)
    ensures doc.pages == old(doc.pages) && doc.annots == old(doc.annots)
  {
    var fontSize := DraftFontSize(level);
    var font := FontFor(level);
    var indent := level as real * IndentPerLevel;
    var titleX := DraftMarginX + indent;
    doc.DrawText(TextRun(page, title, titleX, y, fontSize, font, Some(env.pageWidth - 100.0 - indent)));
    ghost var titled := doc.runs;
    if level == 0 {
      var dotsXStart := DraftDotsStart(title);
      var dotsXEnd := env.pageWidth - DotsRightEdge;
      DrawDotLeader(doc, page, ".", dotsXStart, dotsXEnd, y - 1.0, fontSize * DotSizeRatio);
    }
    assert doc.runs == titled + DraftLeader(env, page, level, title, y);
    var pageNumWidth := env.widthOf(font, pageNum, fontSize);
    doc.DrawText(TextRun(page, pageNum, env.pageWidth - 50.0 - pageNumWidth, y, fontSize, font, None));
  }

  /** The body of the draft loop up to the recursive call; a failed link lookup throws. */
  method DraftDrawEntry(doc: PdfDoc, env: DraftEnv, page: nat, y: real, item: TocItem, level: nat)
    returns (r: Result<(nat, real), string>)
    modifies doc
    ensures var spec := DraftEntry(AsWritten, env, item, level, old(DraftState(doc)), page, y);
      && (r.Failure? ==> spec == Failure(r.error))
      && (r.Success? ==> spec == Success((DraftState(doc), r.value.0, r.value.1)))
  {
    var workingPage := page;
    var yOffset := y;
    if yOffset < DraftMarginBottom {
      workingPage := doc.AddPage(Page(Size(env.pageWidth, env.pageHeight), TocSheet));
      yOffset := env.pageHeight - DraftMarginBottom;
    }
    ghost var broken := DraftState(doc);
    if level == 0 {
      yOffset := yOffset - DraftFirstLevelNudge;
    }
    DraftDrawLine(doc, env, workingPage, level, item.title, IntToString(item.to), yOffset);
    var titleX := DraftMarginX + level as real * IndentPerLevel;
    var rect := Rect(titleX, yOffset - AnnotYPadding, env.pageWidth - 50.0, yOffset + DraftFontSize(level));
    var linked := CreateLinkAnnotation(doc, workingPage, item.to, env.copies, rect);
    if linked.Failure? {
      return Failure(linked.error);
    }
    assert DraftState(doc) == DraftCanvas(broken.pages, broken.runs + DraftRuns(env, workingPage, level, item.title, IntToString(item.to), yOffset),
                                          PushLink(broken.annots, workingPage, DraftLink(env.copies, rect, linked.value)));
    r := Success((workingPage, yOffset - DraftLineSpacing(level)));
  }

  /** The draft `drawTocItems`, as written: it gives back only the vertical offset. */
  method DraftDrawTocItems(doc: PdfDoc, env: DraftEnv, page: nat, items: seq<TocItem>, level: nat, startY: real)
    returns (r: Result<real, string>)
    modifies doc
    ensures var spec := DraftFrom(AsWritten, env, items, level, 0, old(DraftState(doc)), page, startY);
      && (r.Failure? ==> spec == Failure(r.error))
      && (r.Success? ==> spec.Success? && spec.value.0 == DraftState(doc) && spec.value.2 == r.value)
    decreases items, 1
  {
    ghost var goal := DraftFrom(AsWritten, env, items, level, 0, DraftState(doc), page, startY);
    var current := page;
    var yOffset := startY;
    for i := 0 to |items|
      invariant DraftFrom(AsWritten, env, items, level, i, DraftState(doc), current, yOffset) == goal
    {
      ghost var before := DraftState(doc);
      DraftStep(AsWritten, env, items, level, i, before, current, yOffset);
      var drawn := DraftDrawEntry(doc, env, current, yOffset, items[i], level);
      if drawn.Failure? {
        return Failure(drawn.error);
      }
      current, yOffset := drawn.value.0, drawn.value.1;
      var sub := DraftDrawChildren(doc, env, current, items[i], level, yOffset);
      if sub.Failure? {
        return Failure(sub.error);
      }
      yOffset := sub.value;
    }
    r := Success(yOffset);
  }

  /** `if (item.children?.length) yOffset = await this.drawTocItems(...)`. */
  method DraftDrawChildren(doc: PdfDoc, env: DraftEnv, page: nat, item: TocItem, level: nat, startY: real)
    returns (r: Result<real, string>)
    modifies doc
    ensures var spec := DraftSubtree(AsWritten, env, item, level, old(DraftState(doc)), page, startY);
      && (r.Failure? ==> spec == Failure(r.error))
      && (r.Success? ==> spec.Success? && spec.value.0 == DraftState(doc) && spec.value.2 == r.value)
    decreases item, 0
  {
    r := Success(startY);
    if |item.children| > 0 {
      r := DraftDrawTocItems(doc, env, page, item.children, level + 1, startY);
    }
  }

  /** The draft `createTocPage(sourceDoc, items)` with the source given by its page sizes. */
  method DraftCreateTocPage(source: seq<Size>, items: seq<TocItem>, widthOf: Measure) returns (r: Result<PdfDoc, string>)
    ensures r.Failure? ==> DraftDocument(AsWritten, source, items, widthOf) == Failure(r.error)
    ensures r.Success? ==> fresh(r.value) && DraftDocument(AsWritten, source, items, widthOf) == Success(DraftState(r.value))
  {
    if |source| == 0 {
      return Failure(NoSizeReference);
    }
    var size := source[0];
    var newDoc := new PdfDoc();
    var tocPage := newDoc.AddPage(Page(size, TocSheet));
    var yOffset := size.height / 3.0 * 2.0;
    newDoc.DrawText(TextRun(tocPage, TocHeading, DraftMarginX, yOffset, TitleFontSize, Bold, None));
    yOffset := yOffset - DraftHeadingGap;
    assert DraftState(newDoc) == DraftStart(source);
    var drawn := DraftDrawTocItems(newDoc, DraftEnvFor(source, widthOf), tocPage, items, 0, yOffset);
    ghost var laid := DraftLaid(AsWritten, source, items, widthOf);
    if drawn.Failure? {
      assert laid == Failure(drawn.error);
      return Failure(drawn.error);
    }
    assert laid.Success? && laid.value.0 == DraftState(newDoc);
    CopyPages(newDoc, source, 0, |source|);
    assert DraftState(newDoc) == DraftFinish(source, laid.value.0);
    r := Success(newDoc);
  }

  // ----- what the draft does, and what it was meant to do -----

  /** A link to the copy of a source page, with that page's height as the `XYZ` top. */
  predicate ValidLink(link: Link, copies: seq<Size>)
  {
    link.dest.CopyXyz? && link.dest.sourceIndex < |copies| && link.dest.top == copies[link.dest.sourceIndex].height
  }

  /** Every page so far is a ToC sheet of the first page's size, the page variable names one, and every link is valid. */
  predicate DraftSound(env: DraftEnv, cv: DraftCanvas, page: nat)
  {
    && page < |cv.pages|
    && (forall q :: 0 <= q < |cv.pages| ==> cv.pages[q] == Page(Size(env.pageWidth, env.pageHeight), TocSheet))
    && (forall p :: p in cv.annots ==> p < |cv.pages|)
    && (forall p, k :: p in cv.annots && 0 <= k < |cv.annots[p]| ==> ValidLink(cv.annots[p][k], env.copies))
  }

  lemma DraftEntrySound(mode: DraftMode, env: DraftEnv, item: TocItem, level: nat, cv: DraftCanvas, page: nat, y: real)
    requires DraftSound(env, cv, page)
    ensures var r := DraftEntry(mode, env, item, level, cv, page, y);
      r.Success? ==> DraftSound(env, r.value.0, r.value.1) && DraftSound(env, r.value.0, page) && |cv.pages| <= |r.value.0.pages|
  {
    var broken := DraftBreak(env, cv, page, y);
    assert DraftSound(env, broken.0, broken.1) && |cv.pages| <= |broken.0.pages|;
    DraftPlaceSound(mode, env, item, level, broken.0, broken.1, broken.2);
  }

  /** Placing an entry adds no page and only a valid link on the current page. */
  lemma DraftPlaceSound(mode: DraftMode, env: DraftEnv, item: TocItem, level: nat, cv: DraftCanvas, page: nat, y: real)
    requires DraftSound(env, cv, page)
    ensures var r := DraftPlace(mode, env, item, level, cv, page, y);
      r.Success? ==> DraftSound(env, r.value.0, page) && r.value.1 == page && r.value.0.pages == cv.pages
  {
    var r := DraftPlace(mode, env, item, level, cv, page, y);
    if r.Success? {
      var y2 := if level == 0 then y - DraftFirstLevelNudge else y;
      var target := DraftTarget(mode, env.copies, item.to);
      var link := DraftLink(env.copies, Rect(DraftMarginX + level as real * IndentPerLevel, y2 - AnnotYPadding,
                                             env.pageWidth - 50.0, y2 + DraftFontSize(level)), target.value);
      PushLinkSound(env, cv, page, link, r.value.0.runs);
    }
  }

  /** Queueing a valid link on a ToC page keeps the canvas sound. */
  lemma PushLinkSound(env: DraftEnv, cv: DraftCanvas, page: nat, link: Link, runs: seq<TextRun>)
    requires DraftSound(env, cv, page) && ValidLink(link, env.copies)
    ensures DraftSound(env, DraftCanvas(cv.pages, runs, PushLink(cv.annots, page, link)), page)
  {
    var annots := PushLink(cv.annots, page, link);
    forall p, k | p in annots && 0 <= k < |annots[p]|
      ensures ValidLink(annots[p][k], env.copies)
    {
      if p == page && k == |annots[p]| - 1 {
      } else {
        assert annots[p][k] == cv.annots[p][k];
      }
    }
  }

  /** In either mode the draft only adds ToC sheets and valid links, and its page variable stays on a page. */
  lemma {:induction false} DraftFromSound(mode: DraftMode, env: DraftEnv, items: seq<TocItem>, level: nat, i: nat, cv: DraftCanvas, page: nat, y: real)
    requires i <= |items| && DraftSound(env, cv, page)
    ensures var r := DraftFrom(mode, env, items, level, i, cv, page, y);
      r.Success? ==> DraftSound(env, r.value.0, r.value.1) && |cv.pages| <= |r.value.0.pages|
    decreases items, |items| - i
  {
    if i < |items| {
      DraftStep(mode, env, items, level, i, cv, page, y);
      var drawn := DraftEntry(mode, env, items[i], level, cv, page, y);
      DraftEntrySound(mode, env, items[i], level, cv, page, y);
      if drawn.Success? {
        var sub := DraftSubtree(mode, env, items[i], level, drawn.value.0, drawn.value.1, drawn.value.2);
        DraftSubtreeSound(mode, env, items[i], level, drawn.value.0, drawn.value.1, drawn.value.2);
        if sub.Success? {
          var nextPage := if mode == Corrected then sub.value.1 else drawn.value.1;
          assert DraftSound(env, sub.value.0, nextPage);
          DraftFromSound(mode, env, items, level, i + 1, sub.value.0, nextPage, sub.value.2);
        }
      }
    }
  }

  lemma {:induction false} DraftSubtreeSound(mode: DraftMode, env: DraftEnv, item: TocItem, level: nat, cv: DraftCanvas, page: nat, y: real)
    requires DraftSound(env, cv, page)
    ensures var r := DraftSubtree(mode, env, item, level, cv, page, y);
      r.Success? ==> DraftSound(env, r.value.0, r.value.1) && DraftSound(env, r.value.0, page) && |cv.pages| <= |r.value.0.pages|
    decreases item, 0
  {
    if |item.children| > 0 {
      DraftFromSound(mode, env, item.children, level + 1, 0, cv, page, y);
    }
  }

  /**
   * The ToC sheets first, all of the first source page's size, then every
   * source page in order; each link opens a copied source page at that page's
   * full height, and only ToC pages carry links.
   */
  predicate DraftShaped(source: seq<Size>, d: DraftCanvas)
    requires |source| > 0
  {
    var tocPageCount := |d.pages| - |source|;
    && tocPageCount >= 1
    && (forall q :: 0 <= q < tocPageCount ==> d.pages[q] == Page(source[0], TocSheet))
    && (forall j :: 0 <= j < |source| ==> d.pages[tocPageCount + j] == Page(source[j], SourcePage(j)))
    && (forall p :: p in d.annots ==> p < tocPageCount)
    && (forall p, k :: p in d.annots && 0 <= k < |d.annots[p]| ==> ValidLink(d.annots[p][k], source))
  }

  /** Copying the source after sound ToC pages keeps every source page, in order, behind them. */
  lemma DraftFinishLayout(env: DraftEnv, source: seq<Size>, laid: DraftCanvas, page: nat)
    requires |source| > 0 && env.pageWidth == source[0].width && env.pageHeight == source[0].height && env.copies == source
    requires DraftSound(env, laid, page)
    ensures DraftShaped(source, DraftFinish(source, laid))
  {
    var d := DraftFinish(source, laid);
    forall q | 0 <= q < |laid.pages|
      ensures d.pages[q] == Page(source[0], TocSheet)
    {
      assert d.pages[q] == laid.pages[q];
    }
    forall j | 0 <= j < |source|
      ensures d.pages[|laid.pages| + j] == Page(source[j], SourcePage(j))
    {
      assert d.pages[|laid.pages| + j] == Copies(source, 0, |source|)[j];
    }
  }

  /** The draft's document, in either mode, has the shape `DraftShaped` describes. */
  lemma DraftPageLayout(mode: DraftMode, source: seq<Size>, items: seq<TocItem>, widthOf: Measure)
    requires DraftDocument(mode, source, items, widthOf).Success?
    ensures DraftShaped(source, DraftDocument(mode, source, items, widthOf).value)
  {
    var laid := DraftLaid(mode, source, items, widthOf);
    DraftLaidSound(mode, source, items, widthOf);
    DraftFinishLayout(DraftEnvFor(source, widthOf), source, laid.value.0, laid.value.1);
  }

  /** The ToC pages the draft lays out are sound. */
  lemma DraftLaidSound(mode: DraftMode, source: seq<Size>, items: seq<TocItem>, widthOf: Measure)
    requires |source| > 0
    ensures var laid := DraftLaid(mode, source, items, widthOf);
      laid.Success? ==> DraftSound(DraftEnvFor(source, widthOf), laid.value.0, laid.value.1)
  {
    var env := DraftEnvFor(source, widthOf);
    assert DraftSound(env, DraftStart(source), 0);
    DraftFromSound(mode, env, items, 0, 0, DraftStart(source), 0, source[0].height / 3.0 * 2.0 - DraftHeadingGap);
  }

  /** The links on each page run top to bottom. */
  predicate TopDown(links: seq<Link>)
  {
    forall k :: 0 <= k < |links| - 1 ==> links[k + 1].rect.y0 < links[k].rect.y0
  }

  /** Every page's links run top to bottom, no page after the current one has links, and the cursor is below the current page's last link. */
  predicate DraftReady(cv: DraftCanvas, page: nat, y: real)
  {
    && page < |cv.pages|
    && (forall p :: p in cv.annots ==> p <= page && TopDown(cv.annots[p]))
    && (page in cv.annots && |cv.annots[page]| > 0 ==> y < cv.annots[page][|cv.annots[page]| - 1].rect.y0 + AnnotYPadding)
  }

  lemma DraftEntryReady(mode: DraftMode, env: DraftEnv, item: TocItem, level: nat, cv: DraftCanvas, page: nat, y: real)
    requires DraftReady(cv, page, y)
    ensures var r := DraftEntry(mode, env, item, level, cv, page, y);
      r.Success? ==> DraftReady(r.value.0, r.value.1, r.value.2)
  {
    var broken := DraftBreak(env, cv, page, y);
    assert DraftReady(broken.0, broken.1, broken.2);
    DraftPlaceReady(mode, env, item, level, broken.0, broken.1, broken.2);
  }

  lemma DraftPlaceReady(mode: DraftMode, env: DraftEnv, item: TocItem, level: nat, cv: DraftCanvas, page: nat, y: real)
    requires DraftReady(cv, page, y)
    ensures var r := DraftPlace(mode, env, item, level, cv, page, y);
      r.Success? ==> DraftReady(r.value.0, r.value.1, r.value.2)
  {
    var r := DraftPlace(mode, env, item, level, cv, page, y);
    if r.Success? {
      var y2 := if level == 0 then y - DraftFirstLevelNudge else y;
      var target := DraftTarget(mode, env.copies, item.to);
      var link := DraftLink(env.copies, Rect(DraftMarginX + level as real * IndentPerLevel, y2 - AnnotYPadding,
                                             env.pageWidth - 50.0, y2 + DraftFontSize(level)), target.value);
      assert r.value.0.pages == cv.pages && r.value.0.annots == PushLink(cv.annots, page, link);
      assert r.value.1 == page && r.value.2 == y2 - DraftLineSpacing(level);
      PushLinkReady(cv, page, y, link, r.value.0.runs, y2 - DraftLineSpacing(level));
    }
  }

  /** Queueing a link below the cursor keeps the canvas ready, with the cursor moved below the link's top. */
  lemma PushLinkReady(cv: DraftCanvas, page: nat, y: real, link: Link, runs: seq<TextRun>, y': real)
    requires DraftReady(cv, page, y)
    requires link.rect.y0 <= y - AnnotYPadding && y' < link.rect.y0 + AnnotYPadding
    ensures DraftReady(DraftCanvas(cv.pages, runs, PushLink(cv.annots, page, link)), page, y')
  {
    var links := PushLink(cv.annots, page, link)[page];
    var old1 := if page in cv.annots then cv.annots[page] else [];
    assert links == old1 + [link];
    assert TopDown(links);
  }

  /** Corrected, the draft keeps every page's links top to bottom in outline order. */
  lemma {:induction false} CorrectedFromReady(env: DraftEnv, items: seq<TocItem>, level: nat, i: nat, cv: DraftCanvas, page: nat, y: real)
    requires i <= |items| && DraftReady(cv, page, y)
    ensures var r := DraftFrom(Corrected, env, items, level, i, cv, page, y);
      r.Success? ==> DraftReady(r.value.0, r.value.1, r.value.2)
    decreases items, |items| - i
  {
    if i < |items| {
      DraftStep(Corrected, env, items, level, i, cv, page, y);
      var drawn := DraftEntry(Corrected, env, items[i], level, cv, page, y);
      DraftEntryReady(Corrected, env, items[i], level, cv, page, y);
      if drawn.Success? {
        var sub := DraftSubtree(Corrected, env, items[i], level, drawn.value.0, drawn.value.1, drawn.value.2);
        CorrectedSubtreeReady(env, items[i], level, drawn.value.0, drawn.value.1, drawn.value.2);
        if sub.Success? {
          CorrectedFromReady(env, items, level, i + 1, sub.value.0, sub.value.1, sub.value.2);
        }
      }
    }
  }

  lemma {:induction false} CorrectedSubtreeReady(env: DraftEnv, item: TocItem, level: nat, cv: DraftCanvas, page: nat, y: real)
    requires DraftReady(cv, page, y)
    ensures var r := DraftSubtree(Corrected, env, item, level, cv, page, y);
      r.Success? ==> DraftReady(r.value.0, r.value.1, r.value.2)
    decreases item, 0
  {
    if |item.children| > 0 {
      CorrectedFromReady(env, item.children, level + 1, 0, cv, page, y);
    }
  }

  /** Corrected, the draft never throws once the source has a page. */
  lemma {:induction false} CorrectedFromSucceeds(env: DraftEnv, items: seq<TocItem>, level: nat, i: nat, cv: DraftCanvas, page: nat, y: real)
    requires i <= |items| && |env.copies| > 0
    ensures DraftFrom(Corrected, env, items, level, i, cv, page, y).Success?
    decreases items, |items| - i
  {
    if i < |items| {
      DraftStep(Corrected, env, items, level, i, cv, page, y);
      var drawn := DraftEntry(Corrected, env, items[i], level, cv, page, y);
      CorrectedSubtreeSucceeds(env, items[i], level, drawn.value.0, drawn.value.1, drawn.value.2);
      var sub := DraftSubtree(Corrected, env, items[i], level, drawn.value.0, drawn.value.1, drawn.value.2);
      CorrectedFromSucceeds(env, items, level, i + 1, sub.value.0, sub.value.1, sub.value.2);
    }
  }

  lemma {:induction false} CorrectedSubtreeSucceeds(env: DraftEnv, item: TocItem, level: nat, cv: DraftCanvas, page: nat, y: real)
    requires |env.copies| > 0
    ensures DraftSubtree(Corrected, env, item, level, cv, page, y).Success?
    decreases item, 0
  {
    if |item.children| > 0 {
      CorrectedFromSucceeds(env, item.children, level + 1, 0, cv, page, y);
    }
  }

  /** The corrected draft: it succeeds exactly when the source has pages, and every ToC page lists its links top to bottom. */
  lemma CorrectedDraft(source: seq<Size>, items: seq<TocItem>, widthOf: Measure)
    ensures DraftDocument(Corrected, source, items, widthOf).Success? <==> |source| > 0
    ensures var r := DraftDocument(Corrected, source, items, widthOf);
      r.Success? ==> forall p :: p in r.value.annots ==> TopDown(r.value.annots[p])
  {
    if |source| > 0 {
      var env := DraftEnvFor(source, widthOf);
      var y := source[0].height / 3.0 * 2.0 - DraftHeadingGap;
      CorrectedFromSucceeds(env, items, 0, 0, DraftStart(source), 0, y);
      CorrectedFromReady(env, items, 0, 0, DraftStart(source), 0, y);
    }
  }

  function NoWidth(): Measure
  {
    (f: Font, text: string, size: real) => 0.0
  }

  /** A page 150 high, 140 wide. */
  function ExampleSource(): seq<Size>
  {
    [Size(140.0, 150.0)]
  }

  /** Entry A with one child C, then entry B, all pointing at page 1. */
  function ExampleOutline(): seq<TocItem>
  {
    [TocItem(NumId(1), "A", 1, [TocItem(NumId(2), "C", 1, [], false)], false), TocItem(NumId(3), "B", 1, [], false)]
  }

  /**
   * As written, the cursor is lost: A is drawn on the first ToC page at 56,
   * its child C overflows to a second page and leaves the offset at 85, and B
   * is then drawn back on the first page at 79, above A.
   */
  lemma CursorLost()
    ensures var r := DraftDocument(AsWritten, ExampleSource(), ExampleOutline(), NoWidth());
      && r.Success?
      && 0 in r.value.annots && |r.value.annots[0]| == 2
      && r.value.annots[0][0].rect.y0 < r.value.annots[0][1].rect.y0
      && !TopDown(r.value.annots[0])
  {
    var source := ExampleSource();
    var items := ExampleOutline();
    var env := DraftEnvFor(source, NoWidth());
    var start := DraftStart(source);
    assert source[0].height / 3.0 * 2.0 - DraftHeadingGap == 62.0;
    DraftStep(AsWritten, env, items, 0, 0, start, 0, 62.0);
    var a := DraftEntry(AsWritten, env, items[0], 0, start, 0, 62.0);
    assert a.Success? && a.value.1 == 0 && a.value.2 == 37.0;
    assert a.value.0.annots[0][0].rect.y0 == 54.0;
    var kids := items[0].children;
    DraftStep(AsWritten, env, kids, 1, 0, a.value.0, 0, 37.0);
    var c := DraftEntry(AsWritten, env, kids[0], 1, a.value.0, 0, 37.0);
    assert c.Success? && c.value.1 == 1 && c.value.2 == 85.0;
    assert c.value.0.annots[0] == a.value.0.annots[0];
    var sub := DraftSubtree(AsWritten, env, items[0], 0, a.value.0, 0, 37.0);
    assert sub == Success((c.value.0, 1, 85.0));
    DraftStep(AsWritten, env, items, 0, 1, c.value.0, 0, 85.0);
    var b := DraftEntry(AsWritten, env, items[1], 0, c.value.0, 0, 85.0);
    assert b.Success? && b.value.0.annots[0][1].rect.y0 == 77.0;
  }

  /** As written, an entry pointing at page 0 makes the draft throw; corrected, the lookup clamps it to the first page and the draft succeeds. */
  lemma PageZeroThrows()
    ensures var outline := [TocItem(NumId(1), "Cover", 0, [], false)];
      && DraftDocument(AsWritten, ExampleSource(), outline, NoWidth()) == Failure(NoTargetPage)
      && DraftDocument(Corrected, ExampleSource(), outline, NoWidth()).Success?
  {
    var outline := [TocItem(NumId(1), "Cover", 0, [], false)];
    var env := DraftEnvFor(ExampleSource(), NoWidth());
    DraftStep(AsWritten, env, outline, 0, 0, DraftStart(ExampleSource()), 0, 62.0);
    CorrectedDraft(ExampleSource(), outline, NoWidth());
  }
}
