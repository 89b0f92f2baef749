/**
 * The outline tree shared by the numbering generator, the tree builder and the
 * layout engine: `TocItem` of src/lib/pdf-service.ts.
 */
module Outline {

  /** `id: number | string`. */
  datatype ItemId = NumId(n: int) | StrId(s: string)

  /**
   * One outline entry. `to` is the 1-based page in the source document. The
   * optional `children` and `open` of the source are always present here: an
   * absent `children` is the empty sequence and an absent `open` is false.
   */
  datatype TocItem = TocItem(id: ItemId, title: string, to: int, children: seq<TocItem>, open: bool)

  /** The entries of a forest in document order: each item, then its children, then its later siblings. */
  function PreOrder(items: seq<TocItem>): seq<TocItem>
    decreases items
  {
    if items == [] then [] else [items[0]] + PreOrder(items[0].children) + PreOrder(items[1..])
  }

  lemma {:induction false} PreOrderAppend(items: seq<TocItem>, more: seq<TocItem>)
    ensures PreOrder(items + more) == PreOrder(items) + PreOrder(more)
    decreases items
  {
    if items == [] {
      assert items + more == more;
    } else {
      assert (items + more)[0] == items[0];
      assert (items + more)[1..] == items[1..] + more;
      PreOrderAppend(items[1..], more);
    }
  }

  /** The entries of a list without their subtrees: what a flat listing of the outline shows. */
  function Shallow(items: seq<TocItem>): (r: seq<TocItem>)
    ensures |r| == |items|
    ensures forall k :: 0 <= k < |items| ==> r[k] == items[k].(children := [])
  {
    seq(|items|, k requires 0 <= k < |items| => items[k].(children := []))
  }

  lemma ShallowAppend(a: seq<TocItem>, b: seq<TocItem>)
    ensures Shallow(a + b) == Shallow(a) + Shallow(b)
  {
  }
}
