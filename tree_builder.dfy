/**
 * `buildTree` of src/lib/utils.ts: nests a flat `(title, level, page)` list
 * into an outline forest with a stack of open items.
 *
 * The source creates one node object per row and pushes it into the
 * `children` array of an earlier node in place. Here node `k` is the row's
 * position: `nodes[k]` holds its fields and `kids[k]` its `children` array, and
 * the forest the caller sees is read off these by `MaterializeAll`.
 */
module TreeBuilder {
  import opened Wrappers
  import opened JsText
  import opened Outline

  /** One row of the flat outline. */
  datatype FlatItem = FlatItem(title: string, level: int, page: int)

  /** An entry of `stack`: a node and its level. */
  datatype StackEntry = StackEntry(node: nat, level: int)

  // ---------------------------------------------------------------------------
  // The specification: parents, children and the forest

  /**
   * The nearest row before `j`, searching from `k - 1` down, whose level is
   * strictly smaller than row `j`'s; None when every earlier row is at least as deep.
   */
  function ParentFrom(items: seq<FlatItem>, j: nat, k: nat): (r: Option<nat>)
    requires k <= j < |items|
    requires forall m :: k <= m < j ==> items[m].level >= items[j].level
    ensures r.Some? ==> r.value < j && items[r.value].level < items[j].level
    ensures r.Some? ==> forall m :: r.value < m < j ==> items[m].level >= items[j].level
    ensures r.None? ==> forall m :: 0 <= m < j ==> items[m].level >= items[j].level
    decreases k
  {
    if k == 0 then None
    else if items[k - 1].level < items[j].level then Some(k - 1)
    else ParentFrom(items, j, k - 1)
  }

  /** The parent of row `j` in the forest `buildTree` returns. */
  function Parent(items: seq<FlatItem>, j: nat): (r: Option<nat>)
    requires j < |items|
    ensures r.Some? ==> r.value < j && items[r.value].level < items[j].level
    ensures r.Some? ==> forall m :: r.value < m < j ==> items[m].level >= items[j].level
    ensures r.None? ==> forall m :: 0 <= m < j ==> items[m].level >= items[j].level
  {
    ParentFrom(items, j, j)
  }

  /** The parent is determined by the two properties above. */
  lemma ParentUnique(items: seq<FlatItem>, p: nat, j: nat)
    requires p < j < |items| && items[p].level < items[j].level
    requires forall m :: p < m < j ==> items[m].level >= items[j].level
    ensures Parent(items, j) == Some(p)
  {
  }

  /** The rows in `[lo, hi)` whose parent is `owner` (None: the roots), in input order. */
  function ChildrenBetween(items: seq<FlatItem>, owner: Option<nat>, lo: nat, hi: nat): (cs: seq<nat>)
    requires lo <= hi <= |items|
    ensures forall t :: 0 <= t < |cs| ==> lo <= cs[t] < hi && Parent(items, cs[t]) == owner
    ensures forall t, u :: 0 <= t < u < |cs| ==> cs[t] < cs[u]
    decreases hi - lo
  {
    if hi == lo then []
    else ChildrenBetween(items, owner, lo, hi - 1) + (if Parent(items, hi - 1) == owner then [hi - 1] else [])
  }

  /** Completeness: every row of `[lo, hi)` whose parent is `owner` is listed. */
  lemma {:induction false} ChildrenComplete(items: seq<FlatItem>, owner: Option<nat>, lo: nat, hi: nat, j: nat)
    requires lo <= j < hi <= |items| && Parent(items, j) == owner
    ensures j in ChildrenBetween(items, owner, lo, hi)
    decreases hi - lo
  {
    if j < hi - 1 {
      ChildrenComplete(items, owner, lo, hi - 1, j);
    }
  }

  /** The node `buildTree` creates for row `k`, before any child is pushed into it. */
  function NewNode(items: seq<FlatItem>, k: nat): TocItem
    requires k < |items|
  {
    TocItem(StrId("item-" + NumberToString(k)), items[k].title, items[k].page, [], true)
  }

  /** Every `children` array lists later nodes, in increasing order. */
  predicate KidsWellFormed(n: nat, kids: seq<seq<nat>>)
  {
    && |kids| == n
    && (forall k, t :: 0 <= k < n && 0 <= t < |kids[k]| ==> k < kids[k][t] < n)
    && (forall k, t, u :: 0 <= k < n && 0 <= t < u < |kids[k]| ==> kids[k][t] < kids[k][u])
  }

  /** The tree rooted at node `k`, read off the node fields and the `children` arrays. */
  function Materialize(nodes: seq<TocItem>, kids: seq<seq<nat>>, k: nat): TocItem
    requires KidsWellFormed(|nodes|, kids) && k < |nodes|
    decreases |nodes| - k, 0
  {
    nodes[k].(children := MaterializeAll(nodes, kids, kids[k], k + 1))
  }

  /** The trees rooted at the nodes `ks`, all of which are at least `bound`. */
  function MaterializeAll(nodes: seq<TocItem>, kids: seq<seq<nat>>, ks: seq<nat>, bound: nat): (r: seq<TocItem>)
    requires KidsWellFormed(|nodes|, kids)
    requires forall t :: 0 <= t < |ks| ==> bound <= ks[t] < |nodes|
    ensures |r| == |ks|
    decreases |nodes| - bound, 1
  {
    seq(|ks|, t requires 0 <= t < |ks| => Materialize(nodes, kids, ks[t]))
  }

  function SpecNodes(items: seq<FlatItem>): (nodes: seq<TocItem>)
    ensures |nodes| == |items|
  {
    seq(|items|, k requires 0 <= k < |items| => NewNode(items, k))
  }

  function SpecKids(items: seq<FlatItem>): (kids: seq<seq<nat>>)
    ensures KidsWellFormed(|items|, kids)
  {
    var kids := seq(|items|, k requires 0 <= k < |items| => ChildrenBetween(items, Some(k), 0, |items|));
    assert forall k, t :: 0 <= k < |items| && 0 <= t < |kids[k]| ==> Parent(items, kids[k][t]) == Some(k);
    kids
  }

  /** The forest `buildTree(items)` returns: roots are the rows without a parent. */
  function Forest(items: seq<FlatItem>): seq<TocItem>
  {
    MaterializeAll(SpecNodes(items), SpecKids(items), ChildrenBetween(items, None, 0, |items|), 0)
  }

  // ---------------------------------------------------------------------------
  // The algorithm

  /** Row `p` is still open when row `i` arrives: every row strictly between them is deeper. */
  predicate IsOpen(items: seq<FlatItem>, p: nat, i: nat)
    requires p < i <= |items|
  {
    forall m :: p < m < i ==> items[m].level > items[p].level
  }

  predicate OnStack(stack: seq<StackEntry>, p: nat)
  {
    exists t :: 0 <= t < |stack| && stack[t].node == p
  }

  /**
   * The stack before row `i` is processed: the open rows, bottom to top in input
   * order with strictly increasing levels, the last row on top.
   */
  predicate StackInv(items: seq<FlatItem>, stack: seq<StackEntry>, i: nat)
    requires i <= |items|
  {
    && (forall t :: 0 <= t < |stack| ==> stack[t].node < i && stack[t].level == items[stack[t].node].level)
    && (forall t, u :: 0 <= t < u < |stack| ==> stack[t].node < stack[u].node && stack[t].level < stack[u].level)
    && (i > 0 ==> |stack| > 0 && stack[|stack| - 1].node == i - 1)
    && (forall p :: 0 <= p < i ==> (OnStack(stack, p) <==> IsOpen(items, p, i)))
  }

  /** What the `while` loop of `buildTree` leaves on the stack: a prefix, without any entry at least as deep as `level`. */
  predicate Popped(before: seq<StackEntry>, stack: seq<StackEntry>, level: int)
  {
    && |stack| <= |before| && stack == before[..|stack|]
    && (forall t :: |stack| <= t < |before| ==> before[t].level >= level)
    && (|stack| == 0 || stack[|stack| - 1].level < level)
  }

  /** After popping every entry at least as deep as row `i`, the top of the stack is row `i`'s parent. */
  lemma PopFindsParent(items: seq<FlatItem>, before: seq<StackEntry>, stack: seq<StackEntry>, i: nat)
    requires i < |items| && StackInv(items, before, i) && Popped(before, stack, items[i].level)
    ensures Parent(items, i) == if |stack| == 0 then None else Some(stack[|stack| - 1].node)
  {
    var parent := Parent(items, i);
    if parent.Some? {
      var p := parent.value;
      assert IsOpen(items, p, i);
      var t :| 0 <= t < |before| && before[t].node == p;
      assert t < |stack|;
      var q := stack[|stack| - 1].node;
      assert p <= q;
      assert items[q].level < items[i].level;
      assert q <= p;
    } else {
      assert |stack| == 0;
    }
  }

  /** An earlier row is on the stack after pushing row `i` exactly when it is still open at row `i + 1`. */
  lemma PushKeepsOpen(items: seq<FlatItem>, before: seq<StackEntry>, stack: seq<StackEntry>, i: nat, p: nat)
    requires i < |items| && StackInv(items, before, i) && Popped(before, stack, items[i].level) && p < i
    ensures OnStack(stack + [StackEntry(i, items[i].level)], p) <==> IsOpen(items, p, i + 1)
  {
    var after := stack + [StackEntry(i, items[i].level)];
    if OnStack(after, p) {
      var t :| 0 <= t < |after| && after[t].node == p;
      assert t < |stack|;
      assert OnStack(before, p);
      assert stack[t].level <= stack[|stack| - 1].level;
    }
    if IsOpen(items, p, i + 1) {
      assert IsOpen(items, p, i);
      var t :| 0 <= t < |before| && before[t].node == p;
      assert t < |stack|;
      assert after[t].node == p;
    }
  }

  /** Pushing row `i` onto the popped stack gives the stack for row `i + 1`. */
  lemma PushKeepsStack(items: seq<FlatItem>, before: seq<StackEntry>, stack: seq<StackEntry>, i: nat)
    requires i < |items| && StackInv(items, before, i) && Popped(before, stack, items[i].level)
    ensures StackInv(items, stack + [StackEntry(i, items[i].level)], i + 1)
  {
    var after := stack + [StackEntry(i, items[i].level)];
    forall p | 0 <= p < i + 1
      ensures OnStack(after, p) <==> IsOpen(items, p, i + 1)
    {
      if p == i {
        assert after[|stack|].node == i;
      } else {
        PushKeepsOpen(items, before, stack, i, p);
      }
    }
  }

  /** Nothing before row `k + 1` is a child of row `k`. */
  lemma NoEarlyChildren(items: seq<FlatItem>, k: nat, hi: nat)
    requires k < |items| && hi <= k + 1
    ensures ChildrenBetween(items, Some(k), 0, hi) == []
  {
  }

  /** The arena before row `i`: a node and a `children` array per earlier row, and the roots so far. */
  predicate Scanned(items: seq<FlatItem>, nodes: seq<TocItem>, kids: seq<seq<nat>>, roots: seq<nat>, i: nat)
    requires i <= |items|
  {
    && |nodes| == i && |kids| == i
    && (forall k :: 0 <= k < i ==> nodes[k] == NewNode(items, k))
    && (forall k :: 0 <= k < i ==> kids[k] == ChildrenBetween(items, Some(k), 0, i))
    && roots == ChildrenBetween(items, None, 0, i)
  }

  /** Pushing row `i` into the `children` array of its parent, or into `root` when it has none. */
  lemma ScanStep(items: seq<FlatItem>, nodes: seq<TocItem>, kids: seq<seq<nat>>, roots: seq<nat>, i: nat, owner: Option<nat>)
    requires i < |items| && Scanned(items, nodes, kids, roots, i) && Parent(items, i) == owner
    ensures var grown := kids + [[]];
      match owner
      case None => Scanned(items, nodes + [NewNode(items, i)], grown, roots + [i], i + 1)
      case Some(p) => Scanned(items, nodes + [NewNode(items, i)], grown[p := grown[p] + [i]], roots, i + 1)
  {
    var nodes' := nodes + [NewNode(items, i)];
    assert forall k :: 0 <= k < i + 1 ==> nodes'[k] == NewNode(items, k);
    assert ChildrenBetween(items, None, 0, i + 1) == roots + (if owner == None then [i] else []);
    var grown := kids + [[]];
    var pushed := if owner.Some? then grown[owner.value := grown[owner.value] + [i]] else grown;
    forall k | 0 <= k < i + 1
      ensures pushed[k] == ChildrenBetween(items, Some(k), 0, i + 1)
    {
      assert ChildrenBetween(items, Some(k), 0, i + 1)
          == ChildrenBetween(items, Some(k), 0, i) + (if owner == Some(k) then [i] else []);
      if k == i {
        NoEarlyChildren(items, i, i);
      }
    }
  }

  /** Once every row is processed, the arena holds exactly `Forest(items)`. */
  lemma ArenaIsForest(items: seq<FlatItem>, nodes: seq<TocItem>, kids: seq<seq<nat>>, roots: seq<nat>)
    requires |nodes| == |items| && |kids| == |items|
    requires forall k :: 0 <= k < |items| ==> nodes[k] == NewNode(items, k)
    requires forall k :: 0 <= k < |items| ==> kids[k] == ChildrenBetween(items, Some(k), 0, |items|)
    requires roots == ChildrenBetween(items, None, 0, |items|)
    ensures KidsWellFormed(|nodes|, kids)
    ensures MaterializeAll(nodes, kids, roots, 0) == Forest(items)
  {
    assert nodes == SpecNodes(items);
    assert kids == SpecKids(items);
  }

  /** The `while` loop of `buildTree`: pops every entry at least as deep as `level`. */
  method PopDeeper(stack: seq<StackEntry>, level: int) returns (rest: seq<StackEntry>)
    ensures Popped(stack, rest, level)
  {
    rest := stack;
    while |rest| > 0 && rest[|rest| - 1].level >= level
      invariant |rest| <= |stack| && rest == stack[..|rest|]
      invariant forall t :: |rest| <= t < |stack| ==> stack[t].level >= level
    {
      rest := rest[..|rest| - 1];
    }
  }

  /**
   * One pass of the `for` loop of `buildTree`: create row `i`'s node with id
   * `item-<idCounter>`, pop the deeper entries, push the node into its parent's
   * `children` array (or into `root`) and onto the stack.
   */
  method ScanRow(items: seq<FlatItem>, i: nat, idCounter: nat, nodes: seq<TocItem>, kids: seq<seq<nat>>, roots: seq<nat>, stack: seq<StackEntry>)
    returns (nodes': seq<TocItem>, kids': seq<seq<nat>>, roots': seq<nat>, stack': seq<StackEntry>)
    requires i < |items| && idCounter == i
    requires Scanned(items, nodes, kids, roots, i) && StackInv(items, stack, i)
    ensures Scanned(items, nodes', kids', roots', i + 1) && StackInv(items, stack', i + 1)
  {
    var item := items[i];
    var newItem := TocItem(StrId("item-" + NumberToString(idCounter)), item.title, item.page, [], true);
    nodes' := nodes + [newItem];
    kids' := kids + [[]];
    var level := item.level;
    stack' := PopDeeper(stack, level);
    PopFindsParent(items, stack, stack', i);
    PushKeepsStack(items, stack, stack', i);
    if |stack'| == 0 {
      ScanStep(items, nodes, kids, roots, i, None);
      roots' := roots + [i];
    } else {
      var parent := stack'[|stack'| - 1].node;
      ScanStep(items, nodes, kids, roots, i, Some(parent));
      kids' := kids'[parent := kids'[parent] + [i]];
      roots' := roots;
    }
    stack' := stack' + [StackEntry(i, level)];
  }

  /** `buildTree(items)`. */
  method BuildTree(items: seq<FlatItem>) returns (root: seq<TocItem>)
    ensures root == Forest(items)
  {
    var roots: seq<nat> := [];         // `root`, as node positions
    var nodes: seq<TocItem> := [];     // the node objects, without their children
    var kids: seq<seq<nat>> := [];     // kids[k]: the `children` array of node k
    var stack: seq<StackEntry> := [];
    var idCounter: nat := 0;
    for i := 0 to |items|
      invariant idCounter == i && Scanned(items, nodes, kids, roots, i) && StackInv(items, stack, i)
    {
      nodes, kids, roots, stack := ScanRow(items, i, idCounter, nodes, kids, roots, stack);
      idCounter := idCounter + 1;
    }
    ArenaIsForest(items, nodes, kids, roots);
    root := MaterializeAll(nodes, kids, roots, 0);
  }

  // ---------------------------------------------------------------------------
  // The forest lists the rows in input order

  /** The end of row `k`'s block: the first row after `k` that is not deeper than it, or `|items|`. */
  function EndFrom(items: seq<FlatItem>, k: nat, m: nat): (e: nat)
    requires k < m <= |items|
    requires forall x :: k < x < m ==> items[x].level > items[k].level
    ensures m <= e <= |items|
    ensures forall x :: k < x < e ==> items[x].level > items[k].level
    ensures e < |items| ==> items[e].level <= items[k].level
    decreases |items| - m
  {
    if m == |items| || items[m].level <= items[k].level then m else EndFrom(items, k, m + 1)
  }

  /** The end of the block owned by `owner`; the roots own every row. */
  function End(items: seq<FlatItem>, owner: Option<nat>): (e: nat)
    requires owner.Some? ==> owner.value < |items|
    ensures e <= |items|
    ensures owner.Some? ==> owner.value < e
  {
    match owner
    case None => |items|
    case Some(k) => EndFrom(items, k, k + 1)
  }

  /** The rows `lo` to `hi - 1` as fresh nodes. */
  function NewNodes(items: seq<FlatItem>, lo: nat, hi: nat): (r: seq<TocItem>)
    requires lo <= hi <= |items|
    ensures |r| == hi - lo
    ensures forall t :: 0 <= t < hi - lo ==> r[t] == NewNode(items, lo + t)
  {
    seq(hi - lo, t requires 0 <= t < hi - lo => NewNode(items, lo + t))
  }

  lemma {:induction false} ChildrenSplit(items: seq<FlatItem>, owner: Option<nat>, lo: nat, mid: nat, hi: nat)
    requires lo <= mid <= hi <= |items|
    ensures ChildrenBetween(items, owner, lo, hi)
         == ChildrenBetween(items, owner, lo, mid) + ChildrenBetween(items, owner, mid, hi)
    decreases hi - mid
  {
    if hi > mid {
      ChildrenSplit(items, owner, lo, mid, hi - 1);
    }
  }

  /** A range holding no child of `owner` contributes nothing. */
  lemma NoChildrenIn(items: seq<FlatItem>, owner: Option<nat>, lo: nat, hi: nat)
    requires lo <= hi <= |items|
    requires forall j :: lo <= j < hi ==> Parent(items, j) != owner
    ensures ChildrenBetween(items, owner, lo, hi) == []
  {
  }

  /** Rows after the end of `owner`'s block are not its children. */
  lemma NoChildrenAfterEnd(items: seq<FlatItem>, owner: Option<nat>)
    requires owner.Some? ==> owner.value < |items|
    ensures ChildrenBetween(items, owner, End(items, owner), |items|) == []
  {
    var e := End(items, owner);
    forall j | e <= j < |items|
      ensures Parent(items, j) != owner
    {
      if owner.Some? {
        assert items[e].level <= items[owner.value].level;
      }
    }
    NoChildrenIn(items, owner, e, |items|);
  }

  /** No child of `owner` lies strictly inside the block of its child `c`. */
  lemma ChildBlockEmpty(items: seq<FlatItem>, owner: Option<nat>, c: nat)
    requires c < |items| && Parent(items, c) == owner
    ensures ChildrenBetween(items, owner, c + 1, End(items, Some(c))) == []
  {
    var e := End(items, Some(c));
    forall j | c < j < e
      ensures Parent(items, j) != owner
    {
      ParentAtLeast(items, c, j);
    }
    NoChildrenIn(items, owner, c + 1, e);
  }

  /**
   * The block of a child `c` of `owner` ends inside `owner`'s block, either at
   * the end of it or at the next child of `owner`.
   */
  lemma ChildBlock(items: seq<FlatItem>, owner: Option<nat>, c: nat)
    requires c < |items| && Parent(items, c) == owner
    ensures End(items, Some(c)) <= End(items, owner)
    ensures End(items, Some(c)) == End(items, owner) || Parent(items, End(items, Some(c))) == owner
  {
    ChildWithin(items, owner, c);
    match owner {
      case None => RootBlockEnd(items, c);
      case Some(k) => KidBlockEnd(items, k, c);
    }
  }

  lemma ChildWithin(items: seq<FlatItem>, owner: Option<nat>, c: nat)
    requires c < |items| && Parent(items, c) == owner
    ensures End(items, Some(c)) <= End(items, owner)
  {
    if owner.Some? {
      var k := owner.value;
      var ek := End(items, owner);
      assert c < ek;
      if ek < |items| {
        assert items[ek].level <= items[c].level;
      }
    }
  }

  lemma RootBlockEnd(items: seq<FlatItem>, c: nat)
    requires c < |items| && Parent(items, c) == None
    ensures End(items, Some(c)) == |items| || Parent(items, End(items, Some(c))) == None
  {
    var e := End(items, Some(c));
    if e < |items| {
      assert forall m :: 0 <= m < e ==> items[m].level >= items[e].level by {
        assert items[c].level >= items[e].level;
      }
    }
  }

  lemma KidBlockEnd(items: seq<FlatItem>, k: nat, c: nat)
    requires c < |items| && Parent(items, c) == Some(k)
    ensures End(items, Some(c)) <= End(items, Some(k))
    ensures End(items, Some(c)) == End(items, Some(k)) || Parent(items, End(items, Some(c))) == Some(k)
  {
    var e := End(items, Some(c));
    var ek := End(items, Some(k));
    assert c < ek;
    if ek < |items| {
      assert items[ek].level <= items[c].level;
    }
    if e < ek {
      assert items[e].level <= items[c].level;
      ParentUnique(items, k, e);
    }
  }

  /** Every row strictly inside the block of `c` has a parent at or after `c`. */
  lemma ParentAtLeast(items: seq<FlatItem>, c: nat, j: nat)
    requires c < |items| && c < j < End(items, Some(c))
    ensures Parent(items, j).Some? && Parent(items, j).value >= c
  {
    assert items[c].level < items[j].level;
  }

  /** Node `c`'s `children`, counted from the row after it. */
  lemma KidsOf(items: seq<FlatItem>, c: nat)
    requires c < |items|
    ensures SpecKids(items)[c] == ChildrenBetween(items, Some(c), c + 1, |items|)
  {
    ChildrenSplit(items, Some(c), 0, c + 1, |items|);
    NoEarlyChildren(items, c, c + 1);
  }

  /** The row right after `c`, when it is inside `c`'s block, is `c`'s first child. */
  lemma FirstKid(items: seq<FlatItem>, c: nat)
    requires c < |items|
    ensures c + 1 < End(items, Some(c)) ==> Parent(items, c + 1) == Some(c)
  {
    if c + 1 < End(items, Some(c)) {
      ParentUnique(items, c, c + 1);
    }
  }

  lemma MaterializeCons(nodes: seq<TocItem>, kids: seq<seq<nat>>, c: nat, rest: seq<nat>, lo: nat, hi: nat)
    requires KidsWellFormed(|nodes|, kids) && lo <= c < |nodes| && lo <= hi
    requires forall t :: 0 <= t < |rest| ==> hi <= rest[t] < |nodes|
    ensures MaterializeAll(nodes, kids, [c] + rest, lo)
         == [Materialize(nodes, kids, c)] + MaterializeAll(nodes, kids, rest, hi)
  {
  }

  /** Without its subtree, the tree of row `c` is the node created for it. */
  lemma ShallowNode(items: seq<FlatItem>, c: nat)
    requires c < |items|
    ensures Shallow([Materialize(SpecNodes(items), SpecKids(items), c)]) == [NewNode(items, c)]
  {
    var tree := Materialize(SpecNodes(items), SpecKids(items), c);
    assert SpecNodes(items)[c] == NewNode(items, c);
    assert tree.(children := []) == NewNode(items, c);
  }

  lemma NewNodesCons(items: seq<FlatItem>, c: nat, e: nat, end: nat)
    requires c < e <= end <= |items|
    ensures NewNodes(items, c, end) == [NewNode(items, c)] + NewNodes(items, c + 1, e) + NewNodes(items, e, end)
  {
  }

  lemma NewNodesSplit(items: seq<FlatItem>, lo: nat, mid: nat, hi: nat)
    requires lo <= mid <= hi <= |items|
    ensures NewNodes(items, lo, hi) == NewNodes(items, lo, mid) + NewNodes(items, mid, hi)
  {
  }

  /** The pre-order of the children of `owner` from row `lo` on, without subtrees. */
  function BlockListing(items: seq<FlatItem>, owner: Option<nat>, lo: nat): seq<TocItem>
    requires lo <= |items|
  {
    Shallow(PreOrder(MaterializeAll(SpecNodes(items), SpecKids(items), ChildrenBetween(items, owner, lo, |items|), lo)))
  }

  /** The listing of `owner`'s children from row `lo` on is the rows from `lo` to the end of `owner`'s block. */
  predicate Listed(items: seq<FlatItem>, owner: Option<nat>, lo: nat)
  {
    (owner.Some? ==> owner.value < |items|) && lo <= End(items, owner) &&
    BlockListing(items, owner, lo) == NewNodes(items, lo, End(items, owner))
  }

  /** The children of `owner` from its child `c` on: `c`, then those after `c`'s block. */
  lemma ChildrenFromChild(items: seq<FlatItem>, owner: Option<nat>, c: nat)
    requires c < |items| && Parent(items, c) == owner
    ensures ChildrenBetween(items, owner, c, |items|)
         == [c] + ChildrenBetween(items, owner, End(items, Some(c)), |items|)
  {
    var n, e := |items|, End(items, Some(c));
    ChildBlockEmpty(items, owner, c);
    ChildrenSplit(items, owner, c, c + 1, n);
    ChildrenSplit(items, owner, c + 1, e, n);
    var first, between, after := ChildrenBetween(items, owner, c, c + 1), ChildrenBetween(items, owner, c + 1, e), ChildrenBetween(items, owner, e, n);
    assert first == [c] by {
      assert ChildrenBetween(items, owner, c, c) == [];
    }
    assert between == [];
    calc {
      ChildrenBetween(items, owner, c, n);
      first + ChildrenBetween(items, owner, c + 1, n);
      first + (between + after);
      [c] + after;
    }
  }

  /** The pre-order of a forest whose first tree is row `c`'s. */
  lemma PreOrderCons(items: seq<FlatItem>, c: nat, rest: seq<nat>, e: nat)
    requires c < e <= |items|
    requires forall t :: 0 <= t < |rest| ==> e <= rest[t] < |items|
    ensures Shallow(PreOrder(MaterializeAll(SpecNodes(items), SpecKids(items), [c] + rest, c)))
         == [NewNode(items, c)]
          + BlockListing(items, Some(c), c + 1)
          + Shallow(PreOrder(MaterializeAll(SpecNodes(items), SpecKids(items), rest, e)))
  {
    var nodes, kids := SpecNodes(items), SpecKids(items);
    var tree := Materialize(nodes, kids, c);
    var tail := MaterializeAll(nodes, kids, rest, e);
    MaterializeCons(nodes, kids, c, rest, c, e);
    KidsOf(items, c);
    var sub := MaterializeAll(nodes, kids, ChildrenBetween(items, Some(c), c + 1, |items|), c + 1);
    assert tree.children == sub;
    assert PreOrder([tree] + tail) == [tree] + PreOrder(sub) + PreOrder(tail);
    ShallowAppend([tree] + PreOrder(sub), PreOrder(tail));
    ShallowAppend([tree], PreOrder(sub));
    ShallowNode(items, c);
  }

  /** Nothing is listed from the end of `owner`'s block on. */
  lemma BlockListingAtEnd(items: seq<FlatItem>, owner: Option<nat>)
    requires owner.Some? ==> owner.value < |items|
    ensures Listed(items, owner, End(items, owner))
  {
    NoChildrenAfterEnd(items, owner);
  }

  /** One step of `PreOrderBlock`: the child `c`, then its block, then its later siblings. */
  lemma BlockListingStep(items: seq<FlatItem>, owner: Option<nat>, c: nat)
    requires c < |items| && Parent(items, c) == owner
    requires c < End(items, Some(c)) <= End(items, owner)
    requires Listed(items, Some(c), c + 1) && Listed(items, owner, End(items, Some(c)))
    ensures Listed(items, owner, c)
  {
    var e, end := End(items, Some(c)), End(items, owner);
    var rest := ChildrenBetween(items, owner, e, |items|);
    ChildWithin(items, owner, c);
    ChildrenFromChild(items, owner, c);
    PreOrderCons(items, c, rest, e);
    NewNodesCons(items, c, e, end);
    calc {
      BlockListing(items, owner, c);
      Shallow(PreOrder(MaterializeAll(SpecNodes(items), SpecKids(items), [c] + rest, c)));
      [NewNode(items, c)] + BlockListing(items, Some(c), c + 1) + BlockListing(items, owner, e);
      [NewNode(items, c)] + NewNodes(items, c + 1, e) + NewNodes(items, e, end);
    }
  }

  /** Row `lo` starts a child of `owner`, or is the end of `owner`'s block. */
  predicate Starts(items: seq<FlatItem>, owner: Option<nat>, lo: nat)
  {
    && (owner.Some? ==> owner.value < |items|)
    && lo <= End(items, owner)
    && (lo == End(items, owner) || Parent(items, lo) == owner)
  }

  /** Inside the block of a child `c` of `owner`, its own children start right after it, and its next sibling at its end. */
  lemma ChildStarts(items: seq<FlatItem>, owner: Option<nat>, c: nat)
    requires c < |items| && Parent(items, c) == owner
    ensures c < End(items, Some(c)) <= End(items, owner)
    ensures Starts(items, Some(c), c + 1) && Starts(items, owner, End(items, Some(c)))
  {
    ChildBlock(items, owner, c);
    FirstKid(items, c);
  }

  /**
   * The pre-order of the children of `owner` from row `lo` on lists exactly the
   * rows from `lo` up to the end of `owner`'s block, in input order.
   */
  lemma {:induction false} PreOrderBlock(items: seq<FlatItem>, owner: Option<nat>, lo: nat)
    requires Starts(items, owner, lo)
    ensures Listed(items, owner, lo)
    decreases End(items, owner) - lo, 1
  {
    if lo < End(items, owner) {
      PreOrderChild(items, owner, lo);
    } else {
      BlockListingAtEnd(items, owner);
    }
  }

  /** The listing from a child `c` of `owner`: `c`, its own block, then the siblings after it. */
  lemma {:induction false} PreOrderChild(items: seq<FlatItem>, owner: Option<nat>, c: nat)
    requires Starts(items, owner, c) && c < End(items, owner)
    ensures Listed(items, owner, c)
    decreases End(items, owner) - c, 0
  {
    ChildStarts(items, owner, c);
    var e := End(items, Some(c));
    assert Listed(items, Some(c), c + 1) by {
      PreOrderBlock(items, Some(c), c + 1);
    }
    assert Listed(items, owner, e) by {
      PreOrderBlock(items, owner, e);
    }
    BlockListingStep(items, owner, c);
  }

  /**
   * Listing the forest in document order gives back every row exactly once, in
   * input order, with its title, page and the id `item-<position>`.
   */
  lemma ForestPreOrder(items: seq<FlatItem>)
    ensures Shallow(PreOrder(Forest(items))) == NewNodes(items, 0, |items|)
    ensures |PreOrder(Forest(items))| == |items|
  {
    PreOrderBlock(items, None, 0);
    assert BlockListing(items, None, 0) == Shallow(PreOrder(Forest(items)));
  }
}
