# pdf-outliner: the table-of-contents core in Dafny

This project models the part of pdf-outliner that turns an outline into
table-of-contents (ToC) pages and splices them into a PDF, and proves what
that part promises.

- **Numbering generator** (`src/lib/prefix-service.ts`, module `Numbering`).
  - `convertNum` turns an ordinal into a decimal, upper-Roman, upper-alpha or
    simplified-Chinese label. The Roman branch keeps the source's nested loop
    (`RomanLoop`).
  - `applyCustomPrefix` prefixes every title of the outline tree with its
    hierarchical label. It uses a per-depth style table that saturates at its
    last entry.
- **Outline tree builder** (`buildTree` in `src/lib/utils.ts`, module
  `TreeBuilder`).
  - It nests a flat `(title, level, page)` list with a stack of open items.
  - The method keeps the source's loop, its pop loop and its pushes into
    `root` and into a parent's `children`.
  - The node objects live in an arena: node `k` is the `k`-th row, and
    `kids[k]` is its `children` array. The returned forest is read off that
    arena.
- **Dotted-path update** (`setNestedValue` in `src/lib/utils.ts`, module
  `NestedValue`).
  - JavaScript objects are `JsObject`s whose property maps the method
    updates in place.
  - The method is specified on a snapshot of those maps.
- **Layout engine** (`drawTocItems` in `src/lib/pdf-service.ts`, module
  `TocLayout`).
  - The recursive method draws into a `PdfDoc` (pages, text runs, `/Annots`
    per page) and queues one pending link per entry in the `RenderContext`.
  - It is proved equal to the specification function `LayoutFrom`.
- **Splice and link resolution** (`createTocPage` in
  `src/lib/pdf-service.ts`, module `TocPipeline`).
  1. It copies the source pages before the clamped insert index.
  2. It adds the first ToC page and its heading, then lays the outline out.
  3. It copies the remaining pages.
  4. It attaches every queued link with a `Fit` destination. The target is
     remapped around the ToC pages and clamped into the document.
- **Earlier draft** (`src/lib/pdf.service.ts`, module `TocDraft`).
  - The ToC goes in front of every source page.
  - Styles are fixed.
  - Links are attached at once, with `XYZ` destinations on the copied pages.
  - `DraftFrom` models the code as written and a corrected variant (see
    Findings).

`JsText` states the JavaScript built-ins the core calls on `string ==
seq<char>`: `Number#toString`, `String(n)`, `join`, `split` on one
character, `trim` and `String.fromCharCode`. `PdfModel` is the slice of a
pdf-lib document the generators touch. `Outline` holds the `TocItem` tree
and its pre-order.

Where the design description and the code disagree, the model follows the
code. `applyCustomPrefix` does not trim the new title
(`src/lib/prefix-service.ts:77`), although the design describes the rendered
title as trimmed. The trim happens only in `drawTocItems`
(`src/lib/pdf-service.ts:240`).

## Model

| member | source | states |
|---|---|---|
| JsText.NumberToString | src/lib/prefix-service.ts:31 | `num.toString()` of a non-negative integer is a non-empty string of decimal digits with no leading zero |
| JsText.NumberToStringRoundTrip | src/lib/prefix-service.ts:31 | reading the printed digits back as a base-10 number gives the number |
| JsText.NumberToStringInjective | src/lib/prefix-service.ts:31 | different numbers print differently |
| JsText.IntToString | src/lib/pdf-service.ts:278 | `String(item.to)` is non-empty: digits for a non-negative page, '-' followed by digits for a negative one |
| JsText.IntToStringRoundTrip | src/lib/pdf-service.ts:278 | the digits of `String(item.to)` read back as the page number; for a negative page, after the '-', as its magnitude |
| JsText.JoinNumbersAppend | src/lib/prefix-service.ts:66 | joining a path with one more ordinal appends the separator and that ordinal's digits |
| JsText.Split | src/lib/utils.ts:89 | `split('.')` gives at least one part and no part contains the separator |
| JsText.SplitThenJoin | src/lib/utils.ts:89 | joining the parts of a split with the separator restores the string |
| JsText.JoinThenSplit | src/lib/utils.ts:89 | splitting a join of separator-free parts restores the parts |
| JsText.Trim | src/lib/pdf-service.ts:240 | `trim()` keeps a contiguous middle slice with no whitespace at either end, and everything it drops is whitespace |
| JsText.TrimKeepsTrimmed | src/lib/pdf-service.ts:240 | a string with no whitespace at either end is left unchanged |
| JsText.FromCharCode | src/lib/prefix-service.ts:32 | `String.fromCharCode(c)` is one character whose code is `c mod 2^16` (outside the surrogate range) |
| PdfModel.PushLink | src/lib/pdf-service.ts:190-195 | the link is appended to the page's existing `/Annots` array, or the page gets a new one-element array; every other page's array is unchanged |
| PdfModel.PdfDoc.constructor | src/lib/pdf-service.ts:108 | `PDFDocument.create()` has no pages, no text and no annotations |
| PdfModel.PdfDoc.AddPage | src/lib/pdf-service.ts:130 | `addPage` appends one page and returns its position; text and annotations are unchanged |
| PdfModel.PdfDoc.DrawText | src/lib/pdf-service.ts:250-257 | `drawText` appends one text run and changes nothing else |
| PdfModel.PdfDoc.PushAnnot | src/lib/pdf-service.ts:190-195 | the get-then-push-or-set of `/Annots` gives exactly `PushLink` of the old arrays |
| Numbering.RomanLoop | src/lib/prefix-service.ts:33-44 | the nested `for`/`while` loop over the lookup table writes `RomanFrom(num, 0)` |
| Numbering.ConvertNum | src/lib/prefix-service.ts:30-52 | every style branch, including the Roman loop and the decimal fallback, returns `Numeral(num, style)` |
| Numbering.RomanGreedy | src/lib/prefix-service.ts:33-44 | the Roman label is the symbols of a run of table entries whose values never increase and add up to the ordinal |
| Numbering.RomanRoundTrip | src/lib/prefix-service.ts:33-44 | read with the usual subtractive rule, the Roman label is the ordinal |
| Numbering.RomanTens | src/lib/prefix-service.ts:34-35 | from 10 on, each ten adds a leading "X" (there is no "L" or "XL") |
| Numbering.RomanExamples | src/lib/prefix-service.ts:33-44 | 4 is "IV", 9 "IX", 14 "XIV", 39 "XXXIX" and 40 "XXXX" |
| Numbering.AlphaLetters | src/lib/prefix-service.ts:32 | ordinals 1 to 26 become the letters "A" to "Z" |
| Numbering.AlphaExamples | src/lib/prefix-service.ts:32 | 1 is "A", 26 is "Z" and 27 runs on to "[" |
| Numbering.DecimalRoundTrip | src/lib/prefix-service.ts:30-52 | `decimal` and any style string other than the four tags both print the base-10 digits, which read back as the ordinal |
| Numbering.ParseStyle | src/lib/prefix-service.ts:30-52 | the chain of `style === '...'` tests selects the style whose stored string is the one tested |
| Numbering.StyleTagRoundTrip | src/lib/prefix-service.ts:1-2 | the four tags and every other string are told apart: parsing a style's stored string gives the style back |
| Numbering.ChineseExamples | src/lib/prefix-service.ts:46-50 | up to 10 the label is a single ideograph (not a digit; 3 is 三, 10 is 十); above 10 it is the decimal digits |
| Numbering.ChineseRoundTrip | src/lib/prefix-service.ts:46-50 | the ideograph for an ordinal up to 10 is looked up back as that ordinal |
| Numbering.NumeralInjective | src/lib/prefix-service.ts:30-52 | every style except `alpha_upper` gives different ordinals different labels |
| Numbering.ConfigAt | src/lib/prefix-service.ts:57 | the style used at a depth is one of the configured entries, and it is the depth's own entry whenever the table has one |
| Numbering.ConfigAtSaturates | src/lib/prefix-service.ts:57 | every depth from the last entry on uses the last entry |
| Numbering.ApplyCustomPrefix | src/lib/prefix-service.ts:54-82 | the result has as many items as the input, each with the same id, target, open flag and number of children |
| Numbering.PrefixKeepsShape | src/lib/prefix-service.ts:59-80 | numbering changes titles only: at every depth the tree keeps its length, order, ids, targets and open flags |
| Numbering.PrefixedChild | src/lib/prefix-service.ts:59-80 | the `i`-th title becomes prefix + core label of `i + 1` + suffix + " " + old title, and its children are numbered under `parentPath ++ [i + 1]` one level deeper |
| Numbering.PrefixedTitleAt | src/lib/prefix-service.ts:54-82 | the item at any index path gets the label built from its depth's style, its ancestors' 1-based ordinals and its own ordinal, then a space and its old title |
| Numbering.DefaultNumbering | src/lib/prefix-service.ts:13-28 | with the default table the second top-level item reads "2. …" and its third child "2.3 …" |
| Numbering.InheritedPathIgnoresStyle | src/lib/prefix-service.ts:63-68 | an inheriting Roman level chains the raw decimal parent ordinals: "2.III" |
| Numbering.SiblingNumbersDistinct | src/lib/prefix-service.ts:63-71 | two siblings never get the same core label, in any style but `alpha_upper` |
| TreeBuilder.Parent | src/lib/utils.ts:23-33 | an item's parent is the nearest preceding item of strictly smaller level, or none (a root) when every earlier item is at least as deep |
| TreeBuilder.ParentUnique | src/lib/utils.ts:23-33 | any earlier, shallower item with nothing shallower in between is the parent |
| TreeBuilder.ChildrenBetween | src/lib/utils.ts:27-33 | a node's `children` list only items whose parent it is, in strictly increasing input order |
| TreeBuilder.ChildrenComplete | src/lib/utils.ts:27-33 | every item in the range whose parent is the node is listed among its `children` |
| TreeBuilder.PopDeeper | src/lib/utils.ts:23-25 | the pop loop removes exactly the top entries at least as deep as the new item, leaving a prefix of the stack |
| TreeBuilder.PopFindsParent | src/lib/utils.ts:23-33 | after popping, the top of the stack is the new item's parent, and an empty stack means it is a root |
| TreeBuilder.PushKeepsStack | src/lib/utils.ts:23-35 | after the push the stack levels still increase strictly from the bottom, the new item is on top, and the stack holds exactly the items still open |
| TreeBuilder.ScanStep | src/lib/utils.ts:27-33 | pushing the item into its parent's `children` (or into `root`) keeps every `children` array equal to the item's children so far |
| TreeBuilder.ScanRow | src/lib/utils.ts:13-36 | one `forEach` step, with id `item-<idCounter>`, keeps the nodes, `children` arrays, roots and stack matching the specification |
| TreeBuilder.BuildTree | src/lib/utils.ts:7-39 | the returned roots are exactly `Forest(items)` |
| TreeBuilder.ArenaIsForest | src/lib/utils.ts:7-39 | the node objects and their `children` arrays, read as trees, are the specified forest |
| TreeBuilder.ChildBlock | src/lib/utils.ts:23-33 | a child's subtree ends inside its parent's subtree, either at the parent's end or at the parent's next child |
| TreeBuilder.PreOrderBlock | src/lib/utils.ts:13-36 | the pre-order of a node's children from any child on lists exactly the input rows up to the end of that node's subtree |
| TreeBuilder.ForestPreOrder | src/lib/utils.ts:11-36 | one node per input row, and a pre-order walk gives the rows back in input order, each with its title, `to` = page, id `item-<position>`, `open` true |
| NestedValue.JsObject.constructor | src/lib/utils.ts:88 | an object holds exactly the properties it is given |
| NestedValue.ReadProperty | src/lib/utils.ts:93 | `target[key]` throws exactly on `undefined` and `null`; it gives an object's own property (or `undefined` when missing), a string's length in code points under `length`, and `undefined` on a number or boolean |
| NestedValue.StringIndexRead | src/lib/utils.ts:93 | a string read at a decimal index gives the one-code-point string there, and `undefined` past its end |
| NestedValue.Walk | src/lib/utils.ts:92-94 | a successful walk ends at a value of the object graph; only a non-empty walk can fail |
| NestedValue.Keys | src/lib/utils.ts:89 | a field path always has at least one key |
| NestedValue.SetIn | src/lib/utils.ts:88-99 | it succeeds exactly when the walk over all keys but the last reaches an object; it then returns `obj` and the same objects exist; on failure nothing changes |
| NestedValue.WalkPath | src/lib/utils.ts:92-94 | the `forEach` loop of `target = target[key]` computes `Walk` of the keys |
| NestedValue.SetNestedValue | src/lib/utils.ts:88-99 | the result and the objects' properties afterwards are exactly `SetIn` of the properties before |
| NestedValue.WalkFailurePersists | src/lib/utils.ts:92-94 | once a read throws, walking further keys throws the same error |
| NestedValue.SetInAssigns | src/lib/utils.ts:96 | a successful call changes exactly one slot: the last key of the object the walk reached |
| NestedValue.ReadBack | src/lib/utils.ts:92-96 | after the assignment, walking to the object and reading the key gives the assigned value, if the walk did not read that slot |
| NestedValue.SetThenRead | src/lib/utils.ts:88-99 | after a successful call, reading `fieldPath` gives `value`, unless the walk itself passed through the assigned slot |
| NestedValue.StringOnPath | src/lib/utils.ts:88-99 | with `o.s = "ab"`, walking "s.0" reads "a", and setting "s.0.x.y" throws because `"a".x` is `undefined` |
| NestedValue.SetUnderUndefined | src/lib/utils.ts:96 | when the keys but the last walk to `undefined`, the assignment throws, names the last key and changes nothing |
| NestedValue.AliasedSlot | src/lib/utils.ts:92-96 | with `o.a === o`, setting "a.a" succeeds and reading "a.a" back gives `undefined` |
| NestedValue.SingleKey | src/lib/utils.ts:89-96 | a path without a dot assigns a property of `obj` itself |
| NestedValue.KeysRejoin | src/lib/utils.ts:89 | the keys are dot-free and, joined with dots, give the path back |
| NestedValue.SegmentsWalked | src/lib/utils.ts:89-96 | for a path of dot-free segments, the walk goes through all segments but the last and assigns the last |
| TocLayout.ItemPrefix | src/lib/pdf-service.ts:237-239 | the label is non-empty exactly when numbering is on |
| TocLayout.ItemPrefixChain | src/lib/pdf-service.ts:237-239 | with numbering on, a child's label is its parent's label, a dot and its 1-based position, so labels are tree paths joined by dots |
| TocLayout.RenderContext.constructor | src/lib/pdf-service.ts:146-154 | the render context starts with an empty pending-link queue |
| TocLayout.DrawDotLeader | src/lib/pdf-service.ts:266-275 | the dot `for` loop draws exactly `DotRuns` and touches nothing else |
| TocLayout.DotLeaderPlacement | src/lib/pdf-service.ts:261-275 | the dots are 5 apart from the start, all left of the end, with no room for another; there are none when the start is not left of the end |
| TocLayout.BreakPageIfLow | src/lib/pdf-service.ts:219-223 | below the bottom margin it adds a page of the reference size and moves to 60 below its top; otherwise nothing changes |
| TocLayout.DrawEntryLine | src/lib/pdf-service.ts:250-286 | the title, optional dot leader and page number are drawn as `EntryRuns` |
| TocLayout.EntryRunsOnLine | src/lib/pdf-service.ts:250-286 | title, dots and page number share the entry's page and baseline |
| TocLayout.PlaceTocEntry | src/lib/pdf-service.ts:237-298 | drawing and queueing at a settled cursor produce exactly `PlaceEntry`, and the label is the item prefix |
| TocLayout.DrawTocEntry | src/lib/pdf-service.ts:216-298 | the loop body up to the recursion produces exactly `DrawEntry` and leaves `/Annots` untouched |
| TocLayout.DrawTocItems | src/lib/pdf-service.ts:200-313 | the document, the queue and the returned (page, yOffset) are exactly `LayoutFrom` of the state before |
| TocLayout.DrawChildren | src/lib/pdf-service.ts:300-306 | the recursion runs only for an item with children, and the parent resumes from the child's returned page and offset |
| TocLayout.LayoutStep | src/lib/pdf-service.ts:216-307 | one loop turn draws the entry, then its subtree, and continues from where the subtree stopped |
| TocLayout.EntryOnOnePage | src/lib/pdf-service.ts:219-298 | an entry's text and link all go on one page: a new ToC page when the cursor was below the margin, else the current one; the link box is [titleX, y−2, pageWidth−50, y+fontSize]; the cursor drops by fontSize·lineSpacing, plus 8 at level 0 |
| TocLayout.PlaceOnOnePage | src/lib/pdf-service.ts:242-298 | at a settled cursor the line, its link and the next cursor are on the cursor's page, and no page is added |
| TocLayout.LayoutTargets | src/lib/pdf-service.ts:288-306 | exactly one link is queued per entry, in pre-order, targeting `item.to + (pageOffset ?? 0)` |
| TocLayout.DrawEntryTarget | src/lib/pdf-service.ts:292-296 | each entry queues one link to its page plus the offset |
| TocLayout.SubtreeTargets | src/lib/pdf-service.ts:300-306 | the subtree queues one link per descendant, in pre-order |
| TocLayout.LayoutExtends | src/lib/pdf-service.ts:216-307 | the layout never removes or rewrites pages, text or links, and every page it adds is a ToC page of the reference size |
| TocLayout.LayoutKeepsOrder | src/lib/pdf-service.ts:216-307 | with positive line heights, queued links are in reading order: each on a later page or lower on the same page |
| TocLayout.LayoutWithin | src/lib/pdf-service.ts:216-307 | the cursor and every queued link stay on pages of the document from the first ToC page on |
| TocPipeline.InsertIndex | src/lib/pdf-service.ts:116-118 | the insert index is `insertAtPage − 1` clamped into [0, number of source pages] |
| TocPipeline.Copies | src/lib/pdf-service.ts:120-124 | `copyPages` gives the source pages of the range, in order, each marked with its source index |
| TocPipeline.CopyPages | src/lib/pdf-service.ts:122-123 | the `forEach(addPage)` loop appends exactly those copies |
| TocPipeline.ResolveTarget | src/lib/pdf-service.ts:167-180 | every resolved link index is a page of the final document |
| TocPipeline.ResolveTargetLands | src/lib/pdf-service.ts:167-180 | a target page of the source resolves to that page's copy; below 1 it goes to the first page and past the end to the last page |
| TocPipeline.AttachLinks | src/lib/pdf-service.ts:166-196 | the annotation loop leaves pages and text alone and sets `/Annots` to `AttachAll` of the queue |
| TocPipeline.OpenToc | src/lib/pdf-service.ts:108-142 | before layout the new document holds the leading copies and one ToC page, sized after the second source page (else the first), with its heading at two thirds of the height; the offset starts 38 lower |
| TocPipeline.CloseToc | src/lib/pdf-service.ts:158-196 | tocPageCount is the page count after layout minus the leading copies; then the remaining pages are copied and the links attached, giving `Finish` |
| TocPipeline.Laid | src/lib/pdf-service.ts:132-156 | after layout the document is the leading copies followed by reference-size ToC pages, every queued link sits on one of them, and there is one link per outline entry |
| TocPipeline.CreateTocPage | src/lib/pdf-service.ts:103-199 | it throws exactly when the source has no pages; otherwise the new document and tocPageCount are `TocDocument` of the inputs |
| TocPipeline.FinishLayout | src/lib/pdf-service.ts:158-164 | the finished pages are the source pages with at least one ToC page spliced in at the insert index |
| TocPipeline.TocPageLayout | src/lib/pdf-service.ts:116-164 | source pages [0, insertIndex), then tocPageCount ≥ 1 reference-size ToC pages, then the rest of the source: n + tocPageCount pages |
| TocPipeline.FinishAnnotations | src/lib/pdf-service.ts:166-196 | each ToC page's `/Annots` holds exactly the links queued on it, in queue order, and no other page has any |
| TocPipeline.TocAnnotations | src/lib/pdf-service.ts:166-196 | the same, end to end from the outline: only ToC pages get links, each exactly its own |
| TocPipeline.TocLinkTargets | src/lib/pdf-service.ts:288-296 | the queued targets are the outline's pages plus the offset, in pre-order |
| TocPipeline.TocReadingOrder | src/lib/pdf-service.ts:216-307 | with positive line heights the queued links are in reading order |
| TocPipeline.FinishLinkLands | src/lib/pdf-service.ts:166-196 | a queued link whose target is a source page is attached on its ToC page and opens that page's copy |
| TocPipeline.EntryLinksToItsPage | src/lib/pdf-service.ts:103-199 | the `q`-th entry in pre-order gets a link on the ToC page it was drawn on, and when its shifted page number is a page of the source the link opens that page's copy |
| TocDraft.DraftTarget | src/lib/pdf.service.ts:162-163 | the looked-up page is `min(n − 1, pageNum − 1)`: exact inside the range and the last page above it; as written it fails exactly for `pageNum < 1` or no pages; corrected it fails only with no pages and sends `pageNum < 1` to the first page |
| TocDraft.CreateLinkAnnotation | src/lib/pdf.service.ts:153-181 | it fails like `DraftTarget`; otherwise it appends an `XYZ` link at the copied page's height to the page's `/Annots` or creates the array |
| TocDraft.DraftDrawLine | src/lib/pdf.service.ts:100-134 | title, dots (top level only, from titleX + length·5.5 + 10, one point low, up to pageWidth − 65) and page number are drawn as `DraftRuns` |
| TocDraft.DraftDrawEntry | src/lib/pdf.service.ts:82-143 | the loop body up to the recursion matches `DraftEntry` as written, including its failure |
| TocDraft.DraftDrawTocItems | src/lib/pdf.service.ts:66-151 | the draft method matches `DraftFrom` as written: the same document and the returned offset, or the same failure |
| TocDraft.DraftDrawChildren | src/lib/pdf.service.ts:145-147 | the recursion for an item with children, returning only the offset |
| TocDraft.DraftCreateTocPage | src/lib/pdf.service.ts:27-64 | the draft `createTocPage` yields `DraftDocument` as written, or its failure |
| TocDraft.DraftLineAdvance | src/lib/pdf.service.ts:83-98 | below 50 an entry moves to a new page, 50 below its top; a top-level line then drops 6 + 19, a deeper one 15; it throws exactly when the link lookup does |
| TocDraft.DraftFromSound | src/lib/pdf.service.ts:66-151 | the draft only adds ToC pages of the first page's size and valid links, and its page variable stays on a page |
| TocDraft.DraftPageLayout | src/lib/pdf.service.ts:27-64 | the draft document is ≥ 1 ToC page, then every source page in order; only ToC pages carry links, each opening a copied page at its full height |
| TocDraft.CorrectedFromReady | src/lib/pdf.service.ts:145-147 | when the page comes back from the recursion, every page's links run top to bottom |
| TocDraft.CorrectedFromSucceeds | src/lib/pdf.service.ts:163 | with the lower clamp, the draft never throws once the source has a page |
| TocDraft.CorrectedDraft | src/lib/pdf.service.ts:66-181 | the corrected draft succeeds exactly when the source has pages, and every ToC page lists its links top to bottom |
| TocDraft.CursorLost | src/lib/pdf.service.ts:145-147 | as written, an entry after a subtree that spilled onto a new page is drawn back on the old page, above its predecessor |
| TocDraft.PageZeroThrows | src/lib/pdf.service.ts:163 | as written, an entry pointing at page 0 makes the draft throw; corrected, it succeeds |

## Left out

- Fonts, the pdf.js worker and file I/O (`loadFonts`, `embedFont`, the
  worker setup) are not modelled. `widthOfTextAtSize` is the uninterpreted
  parameter `widthOf`.
- Colours are not modelled: the `rgb` values and the hex parsing of the
  configured colour.
- Coordinates are exact `real`s. IEEE-754 rounding of the source's
  arithmetic is not modelled.
- The ToC settings read from the `tocConfig` store are a parameter of
  `CreateTocPage`.
- pdf-lib's object model is not modelled: page and font objects, `ref`s,
  the annotation dictionaries and their encoding. A page is its position in
  the document. A `Fit` destination holds a page position; an `XYZ`
  destination holds the copied source page's index and height.
- The new document starts with no `/Annots`. Annotations a copied source
  page already carries are not modelled; links go only to ToC pages, which
  are never copies.
- `renderPage`, `convertPdfJsOutlineToTocItems` and `isTauri` are outside the
  modelled core (canvas, DOM and pdf.js work).
- The `maxWidth` given with an entry title is recorded on the text run.
  pdf-lib's wrapping of longer titles is not modelled.
- Asynchrony is not modelled: the `await`ed steps run in sequence.
- TocDraft.DraftLineAdvance: the draft embeds the standard Helvetica fonts
  (src/lib/pdf.service.ts:37-38), whose WinAnsi encoding makes `drawText`
  throw on a title with a character outside that code page. That error is
  not modelled: titles are taken to be encodable, and "throws exactly when
  the link lookup does" holds only for such titles.
- TocDraft.CorrectedDraft: for the same reason, "succeeds exactly when the
  source has pages" holds only for titles the standard fonts can encode.
- Numbering.ApplyCustomPrefix: requires a non-empty style table whenever
  there are items to number. With an empty table and at least one item the
  source throws on reading `config.inheritParent`, and that error path is not
  modelled; with no items it returns the empty list, as the model does.
- Numbering.ApplyCustomPrefix: the optional `children` of an item is always
  present (an absent array is the empty sequence), so `item.children || []`
  is the identity here.
- JsText.FromCharCode: a code in the UTF-16 surrogate range has no `char`
  here and becomes U+FFFD, whereas JavaScript keeps the lone surrogate.
- TocDraft.DraftDrawLine: the dot leader starts after `title.length`
  characters. JavaScript counts UTF-16 code units, so titles with characters
  outside the Basic Multilingual Plane start their dots a little earlier in
  the model.
- TocLayout.LayoutKeepsOrder: reading order is proved only when every level's
  `fontSize * lineSpacing` is positive. The source accepts any configured
  value, and with a zero or negative one, lines overlap or climb.
- NestedValue.SetNestedValue: objects are reduced to their own string-keyed
  properties. Prototype chains, getters and setters, and non-writable or
  frozen properties are not modelled. The object graph is given by a ghost
  set of the objects it reaches.
- NestedValue.ReadProperty: of a primitive, only a string's own `length` and
  index properties are read. The length counts code points, whereas
  JavaScript counts UTF-16 code units (`"\u{1F600}".length` is 2), so strings with
  characters outside the Basic Multilingual Plane differ. Members inherited from a prototype (such as
  `"ab".charAt` or `(1).toFixed`) read as `undefined` in the model, whereas
  JavaScript gives the method.
- NestedValue.StringIndexRead: indices count code points, not UTF-16 code
  units. For a string with characters outside the Basic Multilingual Plane,
  JavaScript reads a lone surrogate at some indices and shifts the later
  ones, and the model reads whole characters instead.
- TocPipeline.CreateTocPage: page numbers (`to`), `pageOffset` and
  `insertAtPage` are integers. A fractional value makes the source index
  `allPages` with a non-integer and throw on `.ref`, or cut the copies at a
  different place than it shifts targets; that behaviour is not modelled,
  so "throws exactly when the source has no pages" holds for integer input.
- TocPipeline.ResolveTarget: for the same reason, "every resolved link index
  is a page" and the landing statements (`ResolveTargetLands`,
  `FinishLinkLands`) hold for integer page numbers, offsets and
  `insertAtPage` only.
- TocDraft.DraftTarget: the draft's page numbers are integers too. A
  fractional `pageNum` makes `pages[...]` undefined and the draft throw,
  which the model does not capture.
- TreeBuilder.BuildTree: the node objects shared between `stack`, `root` and
  the `children` arrays are modelled as an arena of positions. The nested
  objects are built when the result is read off.

## Findings

| source | as written | input that shows it | evidently intended | confidence | as-written member | corrected member |
|---|---|---|---|---|---|---|
| src/lib/pdf.service.ts:145-147 | the recursive `drawTocItems` returns only `yOffset`, so after a child spills onto a new page the parent keeps drawing on its old page, at the new page's offset | first page 150 high; entry A with child C, then entry B: C breaks to a second page, and B is drawn on the first page at 79, above A at 56 | carry the current page out of the recursion, as `src/lib/pdf-service.ts:304-305` does | high, not executed | TocDraft.CursorLost | TocDraft.CorrectedDraft |
| src/lib/pdf.service.ts:163 | the link target index `Math.min(pages.length - 1, pageNum - 1)` has no lower clamp, so a page number of 0 or less reads `pages[-1]` and `.ref` of `undefined` throws | an entry with `to` = 0 | clamp from below as well, as `src/lib/pdf-service.ts:178-179` does | medium, not executed | TocDraft.PageZeroThrows | TocDraft.CorrectedDraft |
