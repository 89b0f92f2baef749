/**
 * The slice of a pdf-lib document the outline generators touch: pages with a
 * size and an origin, the text drawn on them, and each page's `/Annots` array
 * of link annotations. A page is identified by its position in the document;
 * pages are only ever appended, so a position stays valid.
 */
module PdfModel {
  import opened Wrappers

  datatype Size = Size(width: real, height: real)

  /** Where a page came from: a copy of a page of the source document, or a page added for the outline. */
  datatype Origin = SourcePage(index: nat) | TocSheet

  datatype Page = Page(size: Size, origin: Origin)

  datatype Font = Regular | Bold

  /** One `drawText` call: the page it drew on, the text and where and how it was set. */
  datatype TextRun = TextRun(page: nat, text: string, x: real, y: real, size: real, font: Font, maxWidth: Option<real>)

  /** `[x0, y0, x1, y1]` in page coordinates. */
  datatype Rect = Rect(x0: real, y0: real, x1: real, y1: real)

  /**
   * Where a link goes: `[page, 'Fit']` for a page of the document, or
   * `[copy, 'XYZ', 0, top, 0]` for the copy of source page `sourceIndex`, a
   * page object that may not have been added to the document yet.
   */
  datatype Dest = Fit(page: nat) | CopyXyz(sourceIndex: nat, top: real)

  /** A `/Link` annotation with no border. */
  datatype Link = Link(rect: Rect, dest: Dest)

  /** `/Annots` after pushing `link` on page `page`: appended to an existing array, or a new one-element array. */
  function PushLink(annots: map<nat, seq<Link>>, page: nat, link: Link): (r: map<nat, seq<Link>>)
    ensures page in r && r[page] == (if page in annots then annots[page] else []) + [link]
    ensures forall p :: p != page ==> (p in r <==> p in annots) && (p in annots ==> r[p] == annots[p])
  {
    if page in annots then annots[page := annots[page] + [link]] else annots[page := [link]]
  }

  class PdfDoc {
    var pages: seq<Page>
    var runs: seq<TextRun>
    var annots: map<nat, seq<Link>>

    /** `PDFDocument.create()`. */
    constructor ()
      ensures pages == [] && runs == [] && annots == map[]
    {
      pages := [];
      runs := [];
      annots := map[];
    }

    /** `addPage`: appends a page and gives back its position. */
    method AddPage(page: Page) returns (index: nat)
      modifies this
      ensures pages == old(pages) + [page] && index == |old(pages)|
      ensures runs == old(runs) && annots == old(annots)
    {
      index := |pages|;
      pages := pages + [page];
    }

    /** `page.drawText(...)`. */
    method DrawText(run: TextRun)
      modifies this
      ensures runs == old(runs) + [run]
      ensures pages == old(pages) && annots == old(annots)
    {
      runs := runs + [run];
    }

    /** Looks up the page's `/Annots` and pushes onto it, or sets it to `[link]`. */
    method PushAnnot(page: nat, link: Link)
      modifies this
      ensures annots == PushLink(old(annots), page, link)
      ensures pages == old(pages) && runs == old(runs)
    {
      if page in annots {
        annots := annots[page := annots[page] + [link]];
      } else {
        annots := annots[page := [link]];
      }
    }
  }
}
