/**
 * The table-of-contents layout engine of src/lib/pdf-service.ts:
 * `drawTocItems` walks the outline depth first, draws one line per entry
 * (numbered title, optional dot leader, page number), starts a new page when
 * the cursor falls below the bottom margin, and queues one pending link per
 * entry. `LayoutFrom` is the specification; `DrawTocItems` is the recursive
 * method with its loop, proved equal to it.
 */
module TocLayout {
  import opened Wrappers
  import opened JsText
  import opened Outline
  import opened PdfModel

  // TOC_LAYOUT
  const MarginX: real := 50.0
  const PageMarginBottom: real := 60.0
  const TitleFontSize: real := 23.0
  const TitleYStartRatio: real := 2.0 / 3.0
  const TitleMarginBottom: real := 38.0
  const IndentPerLevel: real := 20.0
  const LineHeightAdjust: real := 8.0
  const DotSizeRatio: real := 0.6
  const DotSpacingStep: real := 5.0
  const DotGapTitle: real := 10.0
  const DotRightPadding: real := 15.0
  const PageNumWidthPad: real := 50.0
  const AnnotYPadding: real := 2.0

  /** The style of one outline level; the colour is not modelled. */
  datatype LevelStyle = LevelStyle(fontSize: real, dotLeader: string, lineSpacing: real)

  /** The user's ToC settings: a style for the top level and one for all deeper levels. */
  datatype TocConfig = TocConfig(firstLevel: LevelStyle, otherLevels: LevelStyle, showNumberedList: bool, pageOffset: Option<int>)

  /** `font.widthOfTextAtSize(text, size)` for the embedded regular or bold font. */
  type Measure = (Font, string, real) -> real

  /** What the render context holds besides the document and the queue. */
  datatype Env = Env(pageWidth: real, pageHeight: real, config: TocConfig, widthOf: Measure)

  /** A link to be attached once every page exists: the ToC page it sits on, its box and the 1-based page it points to. */
  datatype PendingAnnot = PendingAnnot(tocPage: nat, rect: Rect, targetPageNum: int)

  /** The observable effect of drawing: the document's pages and text, and the link queue. */
  datatype Canvas = Canvas(pages: seq<Page>, runs: seq<TextRun>, pending: seq<PendingAnnot>)

  /** Where the next line goes: a page of the document and a baseline. */
  datatype Cursor = Cursor(page: nat, y: real)

  function StyleFor(config: TocConfig, level: nat): LevelStyle
  {
    if level == 0 then config.firstLevel else config.otherLevels
  }

  function FontFor(level: nat): Font
  {
    if level == 0 then Bold else Regular
  }

  /** `config.pageOffset ?? 0`. */
  function PageOffset(config: TocConfig): int
  {
    match config.pageOffset
    case Some(k) => k
    case None => 0
  }

  /** The label of the `i`-th sibling (0-based) below the label `prefix`; `""` stands for an absent prefix. */
  function ItemPrefix(numbered: bool, prefix: string, i: nat): (r: string)
    ensures numbered <==> r != []
  {
    if !numbered then ""
    else if prefix != "" then prefix + "." + NumberToString(i + 1)
    else NumberToString(i + 1)
  }

  /** The text drawn for an entry: its label and title, trimmed. */
  function EntryTitle(config: TocConfig, prefix: string, i: nat, item: TocItem): string
  {
    Trim(ItemPrefix(config.showNumberedList, prefix, i) + " " + item.title)
  }

  /** The dot leader: one glyph every `DotSpacingStep` from `x` while it stays left of `end`. */
  function DotRuns(page: nat, glyph: string, x: real, end: real, y: real, size: real): seq<TextRun>
    decreases if x < end then (end - x).Floor + 1 else 0
  {
    if x < end then [TextRun(page, glyph, x, y, size, Regular, None)] + DotRuns(page, glyph, x + DotSpacingStep, end, y, size)
    else []
  }

  /** The title of an entry line, set in the level's font and clipped to the text column. */
  function TitleRun(env: Env, page: nat, level: nat, title: string, y: real): TextRun
  {
    var indentation := level as real * IndentPerLevel;
    TextRun(page, title, MarginX + indentation, y, StyleFor(env.config, level).fontSize, FontFor(level), Some(env.pageWidth - 100.0 - indentation))
  }

  /** The dot leader of an entry line: from just after the title to short of the page number column. */
  function LeaderRuns(env: Env, page: nat, level: nat, title: string, y: real): seq<TextRun>
  {
    var style := StyleFor(env.config, level);
    if style.dotLeader == "" then []
    else
      DotRuns(page, style.dotLeader, MarginX + level as real * IndentPerLevel + env.widthOf(FontFor(level), title, style.fontSize) + DotGapTitle,
              env.pageWidth - MarginX - DotRightPadding, y, style.fontSize * DotSizeRatio)
  }

  /** The page number, right-aligned against the right margin. */
  function PageNumberRun(env: Env, page: nat, level: nat, pageNumText: string, y: real): TextRun
  {
    var fontSize := StyleFor(env.config, level).fontSize;
    TextRun(page, pageNumText, env.pageWidth - PageNumWidthPad - env.widthOf(FontFor(level), pageNumText, fontSize), y, fontSize, FontFor(level), None)
  }

  /** The text runs of one entry line at baseline `y`: title, optional dot leader, page number. */
  function EntryRuns(env: Env, page: nat, level: nat, title: string, pageNumText: string, y: real): seq<TextRun>
  {
    [TitleRun(env, page, level, title, y)] + LeaderRuns(env, page, level, title, y) + [PageNumberRun(env, page, level, pageNumText, y)]
  }

  /** A fresh ToC page of the reference size. */
  function TocSheetOf(env: Env): Page
  {
    Page(Size(env.pageWidth, env.pageHeight), TocSheet)
  }

  /** The page break taken before an entry when the cursor is below the bottom margin. */
  function BreakIfLow(env: Env, cv: Canvas, cur: Cursor): (Canvas, Cursor)
  {
    if cur.y < PageMarginBottom then
      (cv.(pages := cv.pages + [TocSheetOf(env)]), Cursor(|cv.pages|, env.pageHeight - PageMarginBottom))
    else (cv, cur)
  }

  /** One pass of the loop body before the recursion: break, draw the line, queue its link, move down. */
  function DrawEntry(env: Env, item: TocItem, i: nat, level: nat, prefix: string, cv: Canvas, cur: Cursor): (Canvas, Cursor)
  {
    var broken := BreakIfLow(env, cv, cur);
    PlaceEntry(env, item, i, level, prefix, broken.0, broken.1)
  }

  /** The entry drawn at a cursor the page-break check has already settled, and the cursor one line further down. */
  function PlaceEntry(env: Env, item: TocItem, i: nat, level: nat, prefix: string, cv: Canvas, cur: Cursor): (Canvas, Cursor)
  {
    var style := StyleFor(env.config, level);
    var titleX := MarginX + level as real * IndentPerLevel;
    var y := if level == 0 then cur.y - LineHeightAdjust else cur.y;
    var annot := PendingAnnot(cur.page, Rect(titleX, y - AnnotYPadding, env.pageWidth - MarginX, y + style.fontSize),
                              item.to + PageOffset(env.config));
    (Canvas(cv.pages, cv.runs + EntryRuns(env, cur.page, level, EntryTitle(env.config, prefix, i, item), IntToString(item.to), y),
            cv.pending + [annot]),
     Cursor(cur.page, y - style.fontSize * style.lineSpacing))
  }

  /** `drawTocItems` from the `i`-th sibling on: each entry, then its subtree one level deeper, then the rest. */
  function LayoutFrom(env: Env, items: seq<TocItem>, level: nat, prefix: string, i: nat, cv: Canvas, cur: Cursor): (Canvas, Cursor)
    requires i <= |items|
    decreases items, |items| - i
  {
    if i == |items| then (cv, cur)
    else
      var drawn := DrawEntry(env, items[i], i, level, prefix, cv, cur);
      var sub := Subtree(env, items[i], i, level, prefix, drawn.0, drawn.1);
      LayoutFrom(env, items, level, prefix, i + 1, sub.0, sub.1)
  }

  /** The recursive call for the children of the `i`-th sibling, when it has any. */
  function Subtree(env: Env, item: TocItem, i: nat, level: nat, prefix: string, cv: Canvas, cur: Cursor): (Canvas, Cursor)
    decreases item, 0
  {
    if |item.children| > 0 then
      LayoutFrom(env, item.children, level + 1, ItemPrefix(env.config.showNumberedList, prefix, i), 0, cv, cur)
    else (cv, cur)
  }

  /** One turn of the loop: the `i`-th entry and its subtree. */
  lemma LayoutStep(env: Env, items: seq<TocItem>, level: nat, prefix: string, i: nat, cv: Canvas, cur: Cursor)
    requires i < |items|
    ensures var drawn := DrawEntry(env, items[i], i, level, prefix, cv, cur);
      var sub := Subtree(env, items[i], i, level, prefix, drawn.0, drawn.1);
      LayoutFrom(env, items, level, prefix, i, cv, cur) == LayoutFrom(env, items, level, prefix, i + 1, sub.0, sub.1)
  {
  }

  /** `TocRenderContext`: the document, the page geometry and settings, and the shared link queue. */
  class RenderContext {
    const doc: PdfDoc
    const env: Env
    var pendingAnnots: seq<PendingAnnot>

    constructor (doc: PdfDoc, env: Env)
      ensures this.doc == doc && this.env == env && pendingAnnots == []
    {
      this.doc := doc;
      this.env := env;
      pendingAnnots := [];
    }

    function State(): Canvas
      reads this, doc
    {
      Canvas(doc.pages, doc.runs, pendingAnnots)
    }
  }

  /** The dot-leader `for` loop. */
  method DrawDotLeader(doc: PdfDoc, page: nat, glyph: string, start: real, end: real, y: real, size: real)
    modifies doc
    ensures doc.runs == old(doc.runs) + DotRuns(page, glyph, start, end, y, size)
    ensures doc.pages == old(doc.pages) && doc.annots == old(doc.annots)
  {
    var x := start;
    while x < end
      invariant doc.runs + DotRuns(page, glyph, x, end, y, size) == old(doc.runs) + DotRuns(page, glyph, start, end, y, size)
      invariant doc.pages == old(doc.pages) && doc.annots == old(doc.annots)
      decreases if x < end then (end - x).Floor + 1 else 0
    {
      doc.DrawText(TextRun(page, glyph, x, y, size, Regular, None));
      x := x + DotSpacingStep;
    }
  }

  /** The page break at the top of the loop body. */
  method BreakPageIfLow(ctx: RenderContext, page: nat, y: real) returns (nextPage: nat, nextY: real)
    modifies ctx.doc
    ensures (ctx.State(), Cursor(nextPage, nextY)) == BreakIfLow(ctx.env, old(ctx.State()), Cursor(page, y))
    ensures ctx.doc.annots == old(ctx.doc.annots)
  {
    nextPage, nextY := page, y;
    if y < PageMarginBottom {
      nextPage := ctx.doc.AddPage(TocSheetOf(ctx.env));
      nextY := ctx.env.pageHeight - PageMarginBottom;
    }
  }

  /** The three `drawText` calls of one entry line. */
  method DrawEntryLine(doc: PdfDoc, env: Env, page: nat, level: nat, title: string, pageNumText: string, y: real)
    modifies doc
    ensures doc.runs == old(doc.runs) + EntryRuns(env, page, level, title, pageNumText, y)
    ensures doc.pages == old(doc.pages) && doc.annots == old(doc.annots)
  {
    var style := StyleFor(env.config, level);
    var font := FontFor(level);
    var indentation := level as real * IndentPerLevel;
    var titleX := MarginX + indentation;
    doc.DrawText(TextRun(page, title, titleX, y, style.fontSize, font, Some(env.pageWidth - 100.0 - indentation)));
    ghost var titled := doc.runs;
    if style.dotLeader != "" {
      var titleWidth := env.widthOf(font, title, style.fontSize);
      DrawDotLeader(doc, page, style.dotLeader, titleX + titleWidth + DotGapTitle,
                    env.pageWidth - MarginX - DotRightPadding, y, style.fontSize * DotSizeRatio);
    }
    assert doc.runs == titled + LeaderRuns(env, page, level, title, y);
    var pageNumWidth := env.widthOf(font, pageNumText, style.fontSize);
    doc.DrawText(TextRun(page, pageNumText, env.pageWidth - PageNumWidthPad - pageNumWidth, y, style.fontSize, font, None));
  }

  /** The body of the loop in `drawTocItems` up to the recursive call. */
  method DrawTocEntry(ctx: RenderContext, page: nat, y: real, item: TocItem, i: nat, level: nat, prefix: string)
    returns (nextPage: nat, nextY: real, itemPrefix: string)
    modifies ctx, ctx.doc
    ensures (ctx.State(), Cursor(nextPage, nextY)) == DrawEntry(ctx.env, item, i, level, prefix, old(ctx.State()), Cursor(page, y))
    ensures itemPrefix == ItemPrefix(ctx.env.config.showNumberedList, prefix, i)
    ensures ctx.doc.annots == old(ctx.doc.annots)
  {
    var workingPage, yOffset := BreakPageIfLow(ctx, page, y);
    nextPage, nextY, itemPrefix := PlaceTocEntry(ctx, workingPage, yOffset, item, i, level, prefix);
  }

  /** The rest of the loop body once the page break is settled: the entry's line and its queued link. */
  method PlaceTocEntry(ctx: RenderContext, page: nat, y: real, item: TocItem, i: nat, level: nat, prefix: string)
    returns (nextPage: nat, nextY: real, itemPrefix: string)
    modifies ctx, ctx.doc
    ensures (ctx.State(), Cursor(nextPage, nextY)) == PlaceEntry(ctx.env, item, i, level, prefix, old(ctx.State()), Cursor(page, y))
    ensures itemPrefix == ItemPrefix(ctx.env.config.showNumberedList, prefix, i)
    ensures ctx.doc.annots == old(ctx.doc.annots)
  {
    var env := ctx.env;
    ghost var before := ctx.State();
    var style := StyleFor(env.config, level);
    var titleX := MarginX + level as real * IndentPerLevel;
    itemPrefix := ItemPrefix(env.config.showNumberedList, prefix, i);
    var title := Trim(itemPrefix + " " + item.title);
    var yOffset := y;
    if level == 0 {
      yOffset := yOffset - LineHeightAdjust;
    }
    DrawEntryLine(ctx.doc, env, page, level, title, IntToString(item.to), yOffset);
    var rect := Rect(titleX, yOffset - AnnotYPadding, env.pageWidth - MarginX, yOffset + style.fontSize);
    ctx.pendingAnnots := ctx.pendingAnnots + [PendingAnnot(page, rect, item.to + PageOffset(env.config))];
    nextPage := page;
    nextY := yOffset - style.fontSize * style.lineSpacing;
    assert PlaceEntry(env, item, i, level, prefix, before, Cursor(page, y)).1 == Cursor(nextPage, nextY);
    assert PlaceEntry(env, item, i, level, prefix, before, Cursor(page, y)).0 == ctx.State();
  }

  /** `drawTocItems`: draws `items` at depth `level` from `(currentPage, startY)` and returns where it stopped. */
  method DrawTocItems(currentPage: nat, items: seq<TocItem>, level: nat, startY: real, ctx: RenderContext, prefix: string)
    returns (page: nat, y: real)
    modifies ctx, ctx.doc
    ensures (ctx.State(), Cursor(page, y)) == LayoutFrom(ctx.env, items, level, prefix, 0, old(ctx.State()), Cursor(currentPage, startY))
    ensures ctx.doc.annots == old(ctx.doc.annots)
    decreases items, 1
  {
    page, y := currentPage, startY;
    ghost var env := ctx.env;
    ghost var goal := LayoutFrom(env, items, level, prefix, 0, ctx.State(), Cursor(page, y));
    for i := 0 to |items|
      invariant LayoutFrom(env, items, level, prefix, i, ctx.State(), Cursor(page, y)) == goal
      invariant ctx.doc.annots == old(ctx.doc.annots)
    {
      ghost var before := ctx.State();
      ghost var at := Cursor(page, y);
      var itemPrefix;
      page, y, itemPrefix := DrawTocEntry(ctx, page, y, items[i], i, level, prefix);
      page, y := DrawChildren(page, items[i], i, level, y, ctx, prefix, itemPrefix);
      LayoutStep(env, items, level, prefix, i, before, at);
    }
  }

  /** `if (item.children?.length)`: the recursive call for the subtree below an entry. */
  method DrawChildren(currentPage: nat, item: TocItem, i: nat, level: nat, startY: real, ctx: RenderContext, prefix: string, itemPrefix: string)
    returns (page: nat, y: real)
    requires itemPrefix == ItemPrefix(ctx.env.config.showNumberedList, prefix, i)
    modifies ctx, ctx.doc
    ensures (ctx.State(), Cursor(page, y)) == Subtree(ctx.env, item, i, level, prefix, old(ctx.State()), Cursor(currentPage, startY))
    ensures ctx.doc.annots == old(ctx.doc.annots)
    decreases item, 0
  {
    page, y := currentPage, startY;
    if |item.children| > 0 {
      page, y := DrawTocItems(currentPage, item.children, level + 1, startY, ctx, itemPrefix);
    }
  }

  // ----- what the layout promises -----

  /** Each sibling's label extends its parent's label by its own 1-based position: labels are the tree paths joined by dots. */
  lemma ItemPrefixChain(path: seq<nat>, i: nat)
    ensures ItemPrefix(true, JoinNumbers(path, "."), i) == JoinNumbers(path + [i + 1], ".")
  {
    if |path| == 0 {
      assert path + [i + 1] == [i + 1];
      JoinNumbersSingle(i + 1, ".");
    } else {
      JoinNumbersAppend(path, i + 1, ".");
      if |path| == 1 {
        assert path == [path[0]];
        JoinNumbersSingle(path[0], ".");
      } else {
        assert path[..|path| - 1] + [path[|path| - 1]] == path;
        JoinNumbersAppend(path[..|path| - 1], path[|path| - 1], ".");
      }
    }
  }

  /**
   * One entry goes on one page: the page the break check settles on (a new
   * ToC sheet when the cursor was below the bottom margin). Its text and its
   * link are on that page, the link box spans the line, and the cursor drops
   * by the line height, plus `LineHeightAdjust` at the top level.
   */
  lemma EntryOnOnePage(env: Env, item: TocItem, i: nat, level: nat, prefix: string, cv: Canvas, cur: Cursor)
    ensures var d := DrawEntry(env, item, i, level, prefix, cv, cur);
      var low := cur.y < PageMarginBottom;
      var at := if low then Cursor(|cv.pages|, env.pageHeight - PageMarginBottom) else cur;
      && d.0.pages == (if low then cv.pages + [TocSheetOf(env)] else cv.pages)
      && OnePage(env, item, level, cv.runs, cv.pending, at, d.0, d.1)
  {
    var broken := BreakIfLow(env, cv, cur);
    PlaceOnOnePage(env, item, i, level, prefix, broken.0, broken.1);
  }

  /**
   * The line placed at cursor `at`: text appended after `runs`, all on the
   * cursor's page and on the line's baseline, one link queued after `pending`
   * whose box spans the line, and the cursor one line height further down
   * (plus `LineHeightAdjust` at the top level).
   */
  predicate OnePage(env: Env, item: TocItem, level: nat, runs: seq<TextRun>, pending: seq<PendingAnnot>, at: Cursor, cv: Canvas, next: Cursor)
  {
    var y := if level == 0 then at.y - LineHeightAdjust else at.y;
    var style := StyleFor(env.config, level);
    && next == Cursor(at.page, y - style.fontSize * style.lineSpacing)
    && |runs| < |cv.runs| && cv.runs[..|runs|] == runs
    && (forall k :: |runs| <= k < |cv.runs| ==> cv.runs[k].page == at.page && cv.runs[k].y == y)
    && cv.pending == pending + [PendingAnnot(at.page, Rect(MarginX + level as real * IndentPerLevel, y - AnnotYPadding,
                                                          env.pageWidth - MarginX, y + style.fontSize),
                                            item.to + PageOffset(env.config))]
  }

  lemma PlaceOnOnePage(env: Env, item: TocItem, i: nat, level: nat, prefix: string, cv: Canvas, cur: Cursor)
    ensures var d := PlaceEntry(env, item, i, level, prefix, cv, cur);
      d.0.pages == cv.pages && OnePage(env, item, level, cv.runs, cv.pending, cur, d.0, d.1)
  {
    var style := StyleFor(env.config, level);
    var y := if level == 0 then cur.y - LineHeightAdjust else cur.y;
    var added := EntryRuns(env, cur.page, level, EntryTitle(env.config, prefix, i, item), IntToString(item.to), y);
    var annot := PendingAnnot(cur.page, Rect(MarginX + level as real * IndentPerLevel, y - AnnotYPadding, env.pageWidth - MarginX, y + style.fontSize),
                              item.to + PageOffset(env.config));
    var next := Cursor(cur.page, y - style.fontSize * style.lineSpacing);
    var d := PlaceEntry(env, item, i, level, prefix, cv, cur);
    assert d.0.runs == cv.runs + added;
    assert d.0.pending == cv.pending + [annot];
    assert d.1 == next;
    EntryRunsOnLine(env, cur.page, level, EntryTitle(env.config, prefix, i, item), IntToString(item.to), y);
    OnePageIntro(env, item, level, cv, cur, added, annot, d.0, next);
  }

  /** Appending one line of runs on the cursor's page and baseline, and its link, is a placement on one page. */
  lemma OnePageIntro(env: Env, item: TocItem, level: nat, cv: Canvas, at: Cursor, added: seq<TextRun>, annot: PendingAnnot, out: Canvas, next: Cursor)
    requires out.runs == cv.runs + added && out.pending == cv.pending + [annot]
    requires var y := if level == 0 then at.y - LineHeightAdjust else at.y;
      var style := StyleFor(env.config, level);
      && |added| > 0
      && (forall k :: 0 <= k < |added| ==> added[k].page == at.page && added[k].y == y)
      && annot == PendingAnnot(at.page, Rect(MarginX + level as real * IndentPerLevel, y - AnnotYPadding, env.pageWidth - MarginX, y + style.fontSize),
                               item.to + PageOffset(env.config))
      && next == Cursor(at.page, y - style.fontSize * style.lineSpacing)
    ensures OnePage(env, item, level, cv.runs, cv.pending, at, out, next)
  {
    var runs := out.runs;
    assert runs[..|cv.runs|] == cv.runs;
    forall k | |cv.runs| <= k < |runs|
      ensures runs[k] == added[k - |cv.runs|]
    {
    }
  }

  /** Title, dot leader and page number of an entry share its page and baseline. */
  lemma EntryRunsOnLine(env: Env, page: nat, level: nat, title: string, pageNumText: string, y: real)
    ensures forall k :: 0 <= k < |EntryRuns(env, page, level, title, pageNumText, y)| ==>
              EntryRuns(env, page, level, title, pageNumText, y)[k].page == page && EntryRuns(env, page, level, title, pageNumText, y)[k].y == y
  {
    var e := EntryRuns(env, page, level, title, pageNumText, y);
    var leader := LeaderRuns(env, page, level, title, y);
    LeaderOnPage(env, page, level, title, y);
    forall k | 0 <= k < |e|
      ensures e[k].page == page && e[k].y == y
    {
      if 0 < k < 1 + |leader| {
        assert e[k] == leader[k - 1];
      }
    }
  }

  /** Every glyph of an entry's dot leader is on the entry's page and line. */
  lemma LeaderOnPage(env: Env, page: nat, level: nat, title: string, y: real)
    ensures forall k :: 0 <= k < |LeaderRuns(env, page, level, title, y)| ==>
              LeaderRuns(env, page, level, title, y)[k].page == page && LeaderRuns(env, page, level, title, y)[k].y == y
  {
    var style := StyleFor(env.config, level);
    if style.dotLeader != "" {
      DotLeaderPlacement(page, style.dotLeader, MarginX + level as real * IndentPerLevel + env.widthOf(FontFor(level), title, style.fontSize) + DotGapTitle,
                         env.pageWidth - MarginX - DotRightPadding, y, style.fontSize * DotSizeRatio);
    }
  }

  /** The dot leader: glyphs `DotSpacingStep` apart from `x`, all left of `end`, and no room for another. */
  lemma {:induction false} DotLeaderPlacement(page: nat, glyph: string, x: real, end: real, y: real, size: real)
    ensures var r := DotRuns(page, glyph, x, end, y, size);
      && (|r| > 0 <==> x < end)
      && (forall k :: 0 <= k < |r| ==> r[k] == TextRun(page, glyph, x + k as real * DotSpacingStep, y, size, Regular, None))
      && (forall k :: 0 <= k < |r| ==> r[k].x < end)
      && end <= x + |r| as real * DotSpacingStep
    decreases if x < end then (end - x).Floor + 1 else 0
  {
    if x < end {
      DotLeaderPlacement(page, glyph, x + DotSpacingStep, end, y, size);
      var r := DotRuns(page, glyph, x, end, y, size);
      var rest := DotRuns(page, glyph, x + DotSpacingStep, end, y, size);
      assert r == [r[0]] + rest;
      forall k | 1 <= k < |r|
        ensures r[k] == TextRun(page, glyph, x + k as real * DotSpacingStep, y, size, Regular, None)
      {
        assert r[k] == rest[k - 1];
      }
    }
  }

  function PendingTargets(pending: seq<PendingAnnot>): (t: seq<int>)
    ensures |t| == |pending| && forall k :: 0 <= k < |pending| ==> t[k] == pending[k].targetPageNum
  {
    seq(|pending|, k requires 0 <= k < |pending| => pending[k].targetPageNum)
  }

  /** The page each entry links to: its `to` shifted by the configured offset. */
  function LinkTargets(entries: seq<TocItem>, offset: int): (t: seq<int>)
    ensures |t| == |entries| && forall k :: 0 <= k < |entries| ==> t[k] == entries[k].to + offset
  {
    seq(|entries|, k requires 0 <= k < |entries| => entries[k].to + offset)
  }

  lemma TargetsAppend(p: seq<PendingAnnot>, q: seq<PendingAnnot>, a: seq<TocItem>, b: seq<TocItem>, offset: int)
    ensures PendingTargets(p + q) == PendingTargets(p) + PendingTargets(q)
    ensures LinkTargets(a + b, offset) == LinkTargets(a, offset) + LinkTargets(b, offset)
  {
  }

  lemma PreOrderFrom(items: seq<TocItem>, i: nat)
    requires i < |items|
    ensures PreOrder(items[i..]) == [items[i]] + PreOrder(items[i].children) + PreOrder(items[i + 1..])
  {
    assert items[i..][0] == items[i];
    assert items[i..][1..] == items[i + 1..];
  }

  lemma DrawEntryTarget(env: Env, item: TocItem, i: nat, level: nat, prefix: string, cv: Canvas, cur: Cursor)
    ensures PendingTargets(DrawEntry(env, item, i, level, prefix, cv, cur).0.pending)
         == PendingTargets(cv.pending) + LinkTargets([item], PageOffset(env.config))
  {
    var cv1 := DrawEntry(env, item, i, level, prefix, cv, cur).0;
    assert cv1.pending == cv.pending + [cv1.pending[|cv.pending|]];
  }

  lemma LinkTargetsCons(item: TocItem, a: seq<TocItem>, b: seq<TocItem>, offset: int)
    ensures LinkTargets([item] + a + b, offset) == LinkTargets([item], offset) + LinkTargets(a, offset) + LinkTargets(b, offset)
  {
  }

  lemma Concat3<T>(t: seq<T>, a: seq<T>, b: seq<T>, c: seq<T>)
    ensures t + a + b + c == t + (a + b + c)
  {
  }

  /** One link is queued per entry, in pre-order, pointing at the entry's page plus the offset. */
  lemma {:induction false} LayoutTargets(env: Env, items: seq<TocItem>, level: nat, prefix: string, i: nat, cv: Canvas, cur: Cursor)
    requires i <= |items|
    ensures PendingTargets(LayoutFrom(env, items, level, prefix, i, cv, cur).0.pending)
         == PendingTargets(cv.pending) + LinkTargets(PreOrder(items[i..]), PageOffset(env.config))
    decreases items, |items| - i
  {
    if i == |items| {
      assert items[i..] == [];
    } else {
      var drawn := DrawEntry(env, items[i], i, level, prefix, cv, cur);
      DrawEntryTarget(env, items[i], i, level, prefix, cv, cur);
      var sub := Subtree(env, items[i], i, level, prefix, drawn.0, drawn.1);
      SubtreeTargets(env, items[i], i, level, prefix, drawn.0, drawn.1);
      LayoutStep(env, items, level, prefix, i, cv, cur);
      LayoutTargets(env, items, level, prefix, i + 1, sub.0, sub.1);
      PreOrderFrom(items, i);
      var offset := PageOffset(env.config);
      LinkTargetsCons(items[i], PreOrder(items[i].children), PreOrder(items[i + 1..]), offset);
      Concat3(PendingTargets(cv.pending), LinkTargets([items[i]], offset), LinkTargets(PreOrder(items[i].children), offset),
              LinkTargets(PreOrder(items[i + 1..]), offset));
    }
  }

  lemma {:induction false} SubtreeTargets(env: Env, item: TocItem, i: nat, level: nat, prefix: string, cv: Canvas, cur: Cursor)
    ensures PendingTargets(Subtree(env, item, i, level, prefix, cv, cur).0.pending)
         == PendingTargets(cv.pending) + LinkTargets(PreOrder(item.children), PageOffset(env.config))
    decreases item, 0
  {
    if |item.children| > 0 {
      LayoutTargets(env, item.children, level + 1, ItemPrefix(env.config.showNumberedList, prefix, i), 0, cv, cur);
      assert item.children[0..] == item.children;
    }
  }

  /** `b` only adds to `a`: earlier pages, text and links stay, and every added page is a blank ToC sheet. */
  predicate Extends(env: Env, a: Canvas, b: Canvas)
  {
    && a.pages <= b.pages && a.runs <= b.runs && a.pending <= b.pending
    && forall k :: |a.pages| <= k < |b.pages| ==> b.pages[k] == TocSheetOf(env)
  }

  lemma ExtendsTrans(env: Env, a: Canvas, b: Canvas, c: Canvas)
    requires Extends(env, a, b) && Extends(env, b, c)
    ensures Extends(env, a, c)
  {
    forall k | |a.pages| <= k < |c.pages|
      ensures c.pages[k] == TocSheetOf(env)
    {
      if k < |b.pages| {
        assert c.pages[k] == b.pages[k];
      }
    }
  }

  /** Drawing never removes or rewrites anything, and it only ever adds ToC sheets. */
  lemma {:induction false} LayoutExtends(env: Env, items: seq<TocItem>, level: nat, prefix: string, i: nat, cv: Canvas, cur: Cursor)
    requires i <= |items|
    ensures Extends(env, cv, LayoutFrom(env, items, level, prefix, i, cv, cur).0)
    decreases items, |items| - i
  {
    if i < |items| {
      var drawn := DrawEntry(env, items[i], i, level, prefix, cv, cur);
      DrawEntryExtends(env, items[i], i, level, prefix, cv, cur);
      var sub := Subtree(env, items[i], i, level, prefix, drawn.0, drawn.1);
      SubtreeExtends(env, items[i], i, level, prefix, drawn.0, drawn.1);
      ExtendsTrans(env, cv, drawn.0, sub.0);
      LayoutStep(env, items, level, prefix, i, cv, cur);
      LayoutExtends(env, items, level, prefix, i + 1, sub.0, sub.1);
      ExtendsTrans(env, cv, sub.0, LayoutFrom(env, items, level, prefix, i + 1, sub.0, sub.1).0);
    }
  }

  lemma DrawEntryExtends(env: Env, item: TocItem, i: nat, level: nat, prefix: string, cv: Canvas, cur: Cursor)
    ensures Extends(env, cv, DrawEntry(env, item, i, level, prefix, cv, cur).0)
  {
  }

  lemma {:induction false} SubtreeExtends(env: Env, item: TocItem, i: nat, level: nat, prefix: string, cv: Canvas, cur: Cursor)
    ensures Extends(env, cv, Subtree(env, item, i, level, prefix, cv, cur).0)
    decreases item, 0
  {
    if |item.children| > 0 {
      LayoutExtends(env, item.children, level + 1, ItemPrefix(env.config.showNumberedList, prefix, i), 0, cv, cur);
    }
  }

  /** `b` comes after `a` when reading the ToC: on a later page, or lower on the same page. */
  predicate Follows(a: PendingAnnot, b: PendingAnnot)
  {
    a.tocPage < b.tocPage || (a.tocPage == b.tocPage && b.rect.y0 < a.rect.y0)
  }

  predicate InReadingOrder(pending: seq<PendingAnnot>)
  {
    forall k :: 0 <= k < |pending| - 1 ==> Follows(pending[k], pending[k + 1])
  }

  /** The cursor is past the line of `a`. */
  predicate Past(a: PendingAnnot, cur: Cursor)
  {
    a.tocPage < cur.page || (a.tocPage == cur.page && cur.y < a.rect.y0 + AnnotYPadding)
  }

  /** The cursor is on a page of the document, the queue is in reading order, and the cursor is past its last link. */
  predicate Ready(cv: Canvas, cur: Cursor)
  {
    && cur.page < |cv.pages|
    && InReadingOrder(cv.pending)
    && (|cv.pending| > 0 ==> Past(cv.pending[|cv.pending| - 1], cur))
  }

  /** Every line moves the cursor down. */
  predicate LinesAdvance(config: TocConfig)
  {
    && config.firstLevel.fontSize * config.firstLevel.lineSpacing > 0.0
    && config.otherLevels.fontSize * config.otherLevels.lineSpacing > 0.0
  }

  lemma DrawEntryKeepsOrder(env: Env, item: TocItem, i: nat, level: nat, prefix: string, cv: Canvas, cur: Cursor)
    requires LinesAdvance(env.config) && Ready(cv, cur)
    ensures Ready(DrawEntry(env, item, i, level, prefix, cv, cur).0, DrawEntry(env, item, i, level, prefix, cv, cur).1)
  {
    var broken := BreakIfLow(env, cv, cur);
    assert Ready(broken.0, broken.1);
    PlaceEntryKeepsOrder(env, item, i, level, prefix, broken.0, broken.1);
  }

  /** Placing one entry at a ready cursor leaves the canvas ready at the next line. */
  lemma PlaceEntryKeepsOrder(env: Env, item: TocItem, i: nat, level: nat, prefix: string, cv: Canvas, cur: Cursor)
    requires LinesAdvance(env.config) && Ready(cv, cur)
    ensures Ready(PlaceEntry(env, item, i, level, prefix, cv, cur).0, PlaceEntry(env, item, i, level, prefix, cv, cur).1)
  {
    var placed := PlaceEntry(env, item, i, level, prefix, cv, cur);
    var style := StyleFor(env.config, level);
    var y := if level == 0 then cur.y - LineHeightAdjust else cur.y;
    var annot := PendingAnnot(cur.page, Rect(MarginX + level as real * IndentPerLevel, y - AnnotYPadding, env.pageWidth - MarginX, y + style.fontSize),
                              item.to + PageOffset(env.config));
    assert placed.0.pending == cv.pending + [annot];
    QueueKeepsOrder(cv, cur, placed.0.runs, annot, placed.1);
  }

  /** Queueing a link at or below the cursor, then moving below it, keeps the canvas ready. */
  lemma QueueKeepsOrder(cv: Canvas, cur: Cursor, runs: seq<TextRun>, a: PendingAnnot, next: Cursor)
    requires Ready(cv, cur)
    requires a.tocPage == cur.page && a.rect.y0 + AnnotYPadding <= cur.y
    requires next.page == cur.page && next.y < a.rect.y0 + AnnotYPadding
    ensures Ready(Canvas(cv.pages, runs, cv.pending + [a]), next)
  {
    var pending := cv.pending + [a];
    forall k | 0 <= k < |pending| - 1
      ensures Follows(pending[k], pending[k + 1])
    {
      if k < |cv.pending| - 1 {
        assert pending[k] == cv.pending[k] && pending[k + 1] == cv.pending[k + 1];
      }
    }
  }

  /**
   * Links are queued in reading order, provided every line height is positive:
   * each entry is placed on a later page or lower on the same page than the one before.
   */
  lemma {:induction false} LayoutKeepsOrder(env: Env, items: seq<TocItem>, level: nat, prefix: string, i: nat, cv: Canvas, cur: Cursor)
    requires i <= |items|
    requires LinesAdvance(env.config) && Ready(cv, cur)
    ensures Ready(LayoutFrom(env, items, level, prefix, i, cv, cur).0, LayoutFrom(env, items, level, prefix, i, cv, cur).1)
    decreases items, |items| - i
  {
    if i < |items| {
      var drawn := DrawEntry(env, items[i], i, level, prefix, cv, cur);
      DrawEntryKeepsOrder(env, items[i], i, level, prefix, cv, cur);
      var sub := Subtree(env, items[i], i, level, prefix, drawn.0, drawn.1);
      SubtreeKeepsOrder(env, items[i], i, level, prefix, drawn.0, drawn.1);
      LayoutStep(env, items, level, prefix, i, cv, cur);
      LayoutKeepsOrder(env, items, level, prefix, i + 1, sub.0, sub.1);
    }
  }

  lemma {:induction false} SubtreeKeepsOrder(env: Env, item: TocItem, i: nat, level: nat, prefix: string, cv: Canvas, cur: Cursor)
    requires LinesAdvance(env.config) && Ready(cv, cur)
    ensures Ready(Subtree(env, item, i, level, prefix, cv, cur).0, Subtree(env, item, i, level, prefix, cv, cur).1)
    decreases item, 0
  {
    if |item.children| > 0 {
      LayoutKeepsOrder(env, item.children, level + 1, ItemPrefix(env.config.showNumberedList, prefix, i), 0, cv, cur);
    }
  }

  /** The cursor and every queued link are on pages from `lo` on, and the cursor is on a page of the document. */
  predicate Within(cv: Canvas, cur: Cursor, lo: nat)
  {
    && lo <= cur.page < |cv.pages|
    && forall q :: 0 <= q < |cv.pending| ==> lo <= cv.pending[q].tocPage < |cv.pages|
  }

  lemma DrawEntryWithin(env: Env, item: TocItem, i: nat, level: nat, prefix: string, cv: Canvas, cur: Cursor, lo: nat)
    requires Within(cv, cur, lo)
    ensures Within(DrawEntry(env, item, i, level, prefix, cv, cur).0, DrawEntry(env, item, i, level, prefix, cv, cur).1, lo)
  {
    var broken := BreakIfLow(env, cv, cur);
    assert Within(broken.0, broken.1, lo);
    var drawn := DrawEntry(env, item, i, level, prefix, cv, cur).0;
    assert drawn.pending == broken.0.pending + [drawn.pending[|drawn.pending| - 1]];
  }

  /** Links are only ever queued on the pages the layout started on or added. */
  lemma {:induction false} LayoutWithin(env: Env, items: seq<TocItem>, level: nat, prefix: string, i: nat, cv: Canvas, cur: Cursor, lo: nat)
    requires i <= |items|
    requires Within(cv, cur, lo)
    ensures Within(LayoutFrom(env, items, level, prefix, i, cv, cur).0, LayoutFrom(env, items, level, prefix, i, cv, cur).1, lo)
    decreases items, |items| - i
  {
    if i < |items| {
      var drawn := DrawEntry(env, items[i], i, level, prefix, cv, cur);
      DrawEntryWithin(env, items[i], i, level, prefix, cv, cur, lo);
      var sub := Subtree(env, items[i], i, level, prefix, drawn.0, drawn.1);
      SubtreeWithin(env, items[i], i, level, prefix, drawn.0, drawn.1, lo);
      LayoutStep(env, items, level, prefix, i, cv, cur);
      LayoutWithin(env, items, level, prefix, i + 1, sub.0, sub.1, lo);
    }
  }

  lemma {:induction false} SubtreeWithin(env: Env, item: TocItem, i: nat, level: nat, prefix: string, cv: Canvas, cur: Cursor, lo: nat)
    requires Within(cv, cur, lo)
    ensures Within(Subtree(env, item, i, level, prefix, cv, cur).0, Subtree(env, item, i, level, prefix, cv, cur).1, lo)
    decreases item, 0
  {
    if |item.children| > 0 {
      LayoutWithin(env, item.children, level + 1, ItemPrefix(env.config.showNumberedList, prefix, i), 0, cv, cur, lo);
    }
  }
}
