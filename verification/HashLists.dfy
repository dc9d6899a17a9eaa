/**
 Lists with a one-pointer head (`hlist`). A node's `pprev` points at the cell that points at the node: the head's
 `first` or the previous node's `next`. A cell is a value naming the object and the field.
 */
module HashLists {
  import opened Sequences

  datatype Cell = NoCell | FirstOf(head: HlistHead) | NextOf(node: HlistNode)

  class HlistHead {
    var first: HlistNode?

    constructor ()
      ensures first == null
    {
      first := null;
    }
  }

  class HlistNode {
    var next: HlistNode?
    var pprev: Cell

    constructor ()
      ensures next == null && pprev == NoCell
    {
      next, pprev := null, NoCell;
    }
  }

  /** `*cell`. */
  function Deref(cell: Cell): HlistNode?
    requires cell != NoCell
    reads if cell.FirstOf? then {cell.head} else if cell.NextOf? then {cell.node} else {}
  {
    if cell.FirstOf? then cell.head.first else cell.node.next
  }

  function At(xs: seq<HlistNode>, i: nat): HlistNode? {
    if i < |xs| then xs[i] else null
  }

  function CellOf(h: HlistHead, xs: seq<HlistNode>, i: nat): Cell
    requires i <= |xs|
  {
    if i == 0 then FirstOf(h) else NextOf(xs[i - 1])
  }

  /** `h` heads a well-formed list whose nodes are `xs`. */
  ghost predicate Chain(h: HlistHead, xs: seq<HlistNode>)
    reads h, xs
  {
    && NoDup(xs) && h.first == At(xs, 0)
    && (forall i {:trigger xs[i].next} :: 0 <= i < |xs| ==> xs[i].next == At(xs, i + 1))
    && (forall i {:trigger xs[i].pprev} :: 0 <= i < |xs| ==> xs[i].pprev == CellOf(h, xs, i))
  }

  /** The cell a node's `pprev` points at points at the node, for every node on a list. */
  lemma PprevInverse(h: HlistHead, xs: seq<HlistNode>, x: HlistNode)
    requires Chain(h, xs) && x in xs
    ensures x.pprev != NoCell && Deref(x.pprev) == x
  {
    var i := IndexOf(xs, x);
    if i > 0 {
      assert xs[i - 1].next == x;
    }
  }

  /** The pointers determine the nodes. */
  lemma {:induction false} ChainUnique(h: HlistHead, xs: seq<HlistNode>, ys: seq<HlistNode>, n: nat)
    requires Chain(h, xs) && Chain(h, ys) && n <= |xs|
    ensures n <= |ys| && xs[..n] == ys[..n]
    ensures n == |xs| ==> xs == ys
  {
    if n > 0 {
      ChainUnique(h, xs, ys, n - 1);
      assert n > 1 ==> xs[n - 2].next == xs[n - 1];
      assert n > 1 ==> ys[n - 2] == ys[..n - 1][n - 2];
    }
    if n == |xs| && n > 0 {
      assert xs[n - 1].next == null;
      assert ys[n - 1] == ys[..n][n - 1];
    }
  }

  /** Two lists have no node in common: following `pprev` back from a node leads to one head only. */
  lemma {:induction false} ChainsApart(h: HlistHead, xs: seq<HlistNode>, g: HlistHead, ys: seq<HlistNode>, i: nat, j: nat)
    requires Chain(h, xs) && Chain(g, ys) && h != g && i < |xs| && j < |ys|
    ensures xs[i] != ys[j]
  {
    if i > 0 && j > 0 {
      ChainsApart(h, xs, g, ys, i - 1, j - 1);
    }
    assert xs[i].pprev == CellOf(h, xs, i);
    assert ys[j].pprev == CellOf(g, ys, j);
  }

  // ----- operations

  /** `*cell = x`. */
  method Store(cell: Cell, x: HlistNode?)
    requires cell != NoCell
    modifies if cell.FirstOf? then {cell.head} else {}
    modifies if cell.NextOf? then {cell.node} else {}
    ensures cell.FirstOf? ==> cell.head.first == x
    ensures cell.NextOf? ==> cell.node.next == x && cell.node.pprev == old(cell.node.pprev)
  {
    match cell
    case FirstOf(h) => h.first := x;
    case NextOf(n) => n.next := x;
  }

  lemma Removed(h: HlistHead, xs: seq<HlistNode>, n: HlistNode)
    requires NoDup(xs) && n in xs
    requires var i := IndexOf(xs, n);
             && h.first == At(xs, if i == 0 then 1 else 0)
             && (forall j {:trigger xs[j].next} :: 0 <= j < |xs| && j != i ==> xs[j].next == At(xs, if j == i - 1 then i + 1 else j + 1))
             && (forall j {:trigger xs[j].pprev} :: 0 <= j < |xs| && j != i ==> xs[j].pprev == CellOf(h, xs, if j == i + 1 then i else j))
    ensures Chain(h, Remove(xs, n)) && n !in Remove(xs, n)
  {
    RemoveNoDup(xs, n);
  }

  /** `__hlist_del`: the node leaves the list but keeps its own pointers. */
  method Unhash(n: HlistNode, ghost h: HlistHead, ghost xs: seq<HlistNode>)
    requires Chain(h, xs) && n in xs
    modifies h, xs
    ensures Chain(h, Remove(xs, n)) && n !in Remove(xs, n)
  {
    var next := n.next;
    var pprev := n.pprev;
    Store(pprev, next);
    if next != null {
      next.pprev := pprev;
    }
    Removed(h, xs, n);
  }

  method Del(n: HlistNode, ghost h: HlistHead, ghost xs: seq<HlistNode>)
    requires Chain(h, xs) && n in xs
    modifies h, xs
    ensures Chain(h, Remove(xs, n)) && n !in Remove(xs, n)
    ensures n.next == null && n.pprev == NoCell
  {
    Unhash(n, h, xs);
    n.next := null;
    n.pprev := NoCell;
  }

  /** `hlist_del_init`: nothing happens to a node that is on no list. */
  method DelInit(n: HlistNode, ghost h: HlistHead, ghost xs: seq<HlistNode>)
    requires Chain(h, xs) && (n in xs || n.pprev == NoCell)
    modifies n, h, xs
    ensures n in xs ==> Chain(h, Remove(xs, n)) && n.next == null && n.pprev == NoCell
    ensures n !in xs ==> unchanged(n) && unchanged(h) && forall x :: x in xs ==> unchanged(x)
  {
    if n.pprev != NoCell {
      Unhash(n, h, xs);
      n.next := null;
      n.pprev := NoCell;
    }
  }

  method AddHead(n: HlistNode, h: HlistHead, ghost xs: seq<HlistNode>)
    requires Chain(h, xs) && n !in xs
    modifies n, h, xs
    ensures Chain(h, [n] + xs)
  {
    var first := h.first;
    n.next := first;
    if first != null {
      first.pprev := NextOf(n);
    }
    h.first := n;
    n.pprev := FirstOf(h);
  }

  lemma Inserted(h: HlistHead, xs: seq<HlistNode>, i: nat, n: HlistNode)
    requires NoDup(xs) && n !in xs && i <= |xs|
    requires h.first == if i == 0 then n else At(xs, 0)
    requires forall j {:trigger xs[j].next} :: 0 <= j < |xs| ==> xs[j].next == if j == i - 1 then n else At(xs, j + 1)
    requires forall j {:trigger xs[j].pprev} :: 0 <= j < |xs| ==> xs[j].pprev == if j == i then NextOf(n) else CellOf(h, xs, j)
    requires n.next == At(xs, i) && n.pprev == CellOf(h, xs, i)
    ensures Chain(h, xs[..i] + [n] + xs[i..])
  {
    InsertNoDup(xs, [n], i);
  }

  method AddBefore(n: HlistNode, next: HlistNode, ghost h: HlistHead, ghost xs: seq<HlistNode>)
    requires Chain(h, xs) && next in xs && n !in xs
    modifies n, h, xs
    ensures var i := IndexOf(xs, next); Chain(h, xs[..i] + [n] + xs[i..])
  {
    n.pprev := next.pprev;
    n.next := next;
    next.pprev := NextOf(n);
    Store(n.pprev, n);
    Inserted(h, xs, IndexOf(xs, next), n);
  }

  /** `hlist_add_after` adds `next` after `n`. */
  method AddAfter(n: HlistNode, next: HlistNode, ghost h: HlistHead, ghost xs: seq<HlistNode>)
    requires Chain(h, xs) && n in xs && next !in xs
    modifies next, xs
    ensures var i := IndexOf(xs, n); Chain(h, xs[..i + 1] + [next] + xs[i + 1..])
  {
    next.next := n.next;
    n.next := next;
    next.pprev := NextOf(n);
    if next.next != null {
      next.next.pprev := NextOf(next);
    }
    Inserted(h, xs, IndexOf(xs, n) + 1, next);
  }

  /** `hlist_move_list`: whatever the new head held is lost. */
  method MoveList(was: HlistHead, head: HlistHead, ghost xs: seq<HlistNode>)
    requires Chain(was, xs) && head != was
    modifies was, head, xs
    ensures Chain(head, xs) && Chain(was, [])
  {
    head.first := was.first;
    if head.first != null {
      head.first.pprev := FirstOf(head);
    }
    was.first := null;
  }
}
