/**
 Intrusive circular lists: a list is a head node and its entries, each linked to the next and the previous.
 Every operation rewrites the links in place and is proved against the sequence operation it stands for,
 given the entries as a ghost argument; its `modifies` clause names the few nodes it writes.
 */
module LinkedLists {
  import opened Sequences

  /** `struct list_head`. A null link is the poison that deletion leaves behind. */
  class ListHead {
    var next: ListHead?
    var prev: ListHead?

    constructor ()
      ensures next == null && prev == null
    {
      next, prev := null, null;
    }
  }

  function After(h: ListHead, xs: seq<ListHead>, i: int): ListHead
    requires -1 <= i < |xs|
  {
    if i + 1 < |xs| then xs[i + 1] else h
  }

  function Before(h: ListHead, xs: seq<ListHead>, i: int): ListHead
    requires 0 <= i <= |xs|
  {
    if i > 0 then xs[i - 1] else h
  }

  /** The node after `x`, and the node before it, on the ring. */
  function Succ(h: ListHead, xs: seq<ListHead>, x: ListHead): ListHead
    requires x == h || x in xs
  {
    After(h, xs, if x == h then -1 else IndexOf(xs, x))
  }

  function Pred(h: ListHead, xs: seq<ListHead>, x: ListHead): ListHead
    requires x == h || x in xs
  {
    Before(h, xs, if x == h then |xs| else IndexOf(xs, x))
  }

  /** `h` heads a well-formed list whose entries are `xs`: the links go round through all of them, both ways. */
  ghost predicate Ring(h: ListHead, xs: seq<ListHead>)
    reads h, xs
  {
    && NoDup(xs) && h !in xs
    && h.next == After(h, xs, -1) && h.prev == Before(h, xs, |xs|)
    && (forall i {:trigger xs[i].next} :: 0 <= i < |xs| ==> xs[i].next == After(h, xs, i))
    && (forall i {:trigger xs[i].prev} :: 0 <= i < |xs| ==> xs[i].prev == Before(h, xs, i))
  }

  // ----- facts about rings

  /** `next` and `prev` are mutually inverse all the way round. */
  lemma LinksInverse(h: ListHead, xs: seq<ListHead>, x: ListHead)
    requires Ring(h, xs) && (x == h || x in xs)
    ensures x.next != null && x.next.prev == x && x.prev != null && x.prev.next == x
  {
    if x in xs {
      var i := IndexOf(xs, x);
    }
  }

  /** The links determine the entries. */
  lemma {:induction false} RingUnique(h: ListHead, xs: seq<ListHead>, ys: seq<ListHead>)
    requires Ring(h, xs) && Ring(h, ys)
    ensures xs == ys
  {
    SamePrefix(h, xs, ys, |xs|);
    SamePrefix(h, ys, xs, |ys|);
  }

  lemma {:induction false} SamePrefix(h: ListHead, xs: seq<ListHead>, ys: seq<ListHead>, n: nat)
    requires Ring(h, xs) && Ring(h, ys) && n <= |xs|
    ensures n <= |ys| && xs[..n] == ys[..n]
  {
    if n > 0 {
      SamePrefix(h, xs, ys, n - 1);
      assert n > 1 ==> xs[n - 2] == xs[..n - 1][n - 2] == ys[n - 2];
      assert n > 1 ==> xs[n - 2].next == xs[n - 1];
    }
  }

  /** Two lists either have the same nodes or none in common: following `next` from a shared node leads to both heads. */
  lemma {:induction false} RingsApart(h: ListHead, xs: seq<ListHead>, g: ListHead, ys: seq<ListHead>)
    requires Ring(h, xs) && Ring(g, ys) && g != h && g !in xs
    ensures h !in ys && forall x :: x in xs ==> x !in ys
  {
    forall j | 0 <= j < |ys|
      ensures ys[j] != h && ys[j] !in xs
    {
      WalkOut(h, xs, g, ys, j);
    }
  }

  /** Following `next` never leaves a list. */
  lemma Closed(h: ListHead, xs: seq<ListHead>)
    requires Ring(h, xs)
    ensures forall x :: x == h || x in xs ==> x.next == h || x.next in xs
  {
  }

  lemma {:induction false} WalkOut(h: ListHead, xs: seq<ListHead>, g: ListHead, ys: seq<ListHead>, j: nat)
    requires Ring(h, xs) && Ring(g, ys) && g != h && g !in xs && j < |ys|
    ensures ys[j] != h && ys[j] !in xs
    decreases |ys| - j
  {
    if j + 1 < |ys| {
      WalkOut(h, xs, g, ys, j + 1);
    }
    assert ys[j].next == After(g, ys, j);
    Closed(h, xs);
  }

  lemma FirstHeads(h: ListHead, xs: seq<ListHead>)
    requires Ring(h, xs) && xs != []
    ensures Ring(xs[0], xs[1..] + [h])
  {
    var ys := xs[1..] + [h];
    assert forall j :: 0 <= j < |xs| - 1 ==> ys[j] == xs[j + 1];
  }

  /** Any entry may serve as the head: the ring is the same, read from there. */
  lemma {:induction false} AnyNodeHeads(h: ListHead, xs: seq<ListHead>, i: nat)
    requires Ring(h, xs) && i < |xs|
    ensures Ring(xs[i], xs[i + 1..] + [h] + xs[..i])
  {
    hide Ring;
    if i == 0 {
      FirstHeads(h, xs);
      assert xs[1..] + [h] + xs[..0] == xs[1..] + [h];
    } else {
      AnyNodeHeads(h, xs, i - 1);
      var ys := xs[i..] + [h] + xs[..i - 1];
      FirstHeads(xs[i - 1], ys);
      assert ys[1..] + [xs[i - 1]] == xs[i + 1..] + [h] + xs[..i];
    }
  }

  lemma Entries(h: ListHead, xs: seq<ListHead>)
    requires Ring(h, xs)
    ensures NoDup(xs) && h !in xs
    ensures h.next == After(h, xs, -1)
    ensures forall i {:trigger xs[i].next} :: 0 <= i < |xs| ==> xs[i].next == After(h, xs, i)
  {
  }

  lemma Neighbours(h: ListHead, xs: seq<ListHead>, x: ListHead)
    requires x == h || x in xs
    ensures Succ(h, xs, x) == h || Succ(h, xs, x) in xs
    ensures Pred(h, xs, x) == h || Pred(h, xs, x) in xs
  {
  }

  predicate ListEmpty(head: ListHead)
    reads head
  {
    head.next == head
  }

  predicate ListIsSingular(head: ListHead)
    reads head
  {
    !ListEmpty(head) && head.next == head.prev
  }

  predicate ListIsLast(entry: ListHead, head: ListHead)
    reads entry
  {
    entry.next == head
  }

  /** What the three tests tell about the entries. */
  lemma Tests(h: ListHead, xs: seq<ListHead>)
    requires Ring(h, xs)
    ensures ListEmpty(h) <==> xs == []
    ensures ListIsSingular(h) <==> |xs| == 1
    ensures forall i :: 0 <= i < |xs| ==> (ListIsLast(xs[i], h) <==> i == |xs| - 1)
  {
    assert forall x :: x in xs ==> x != h;
  }

  // ----- the internal operations

  method InitListHead(list: ListHead)
    modifies list
    ensures Ring(list, [])
  {
    list.next := list;
    list.prev := list;
  }

  /** `__list_add`: the two neighbours may be one node. */
  method LinkBetween(node: ListHead, prev: ListHead, next: ListHead)
    requires node != prev && node != next
    modifies node, prev, next
    ensures next.prev == node && node.next == next && node.prev == prev && prev.next == node
    ensures prev != next ==> prev.prev == old(prev.prev) && next.next == old(next.next)
  {
    next.prev := node;
    node.next := next;
    node.prev := prev;
    prev.next := node;
  }

  /** `__list_del`. */
  method LinkAcross(prev: ListHead, next: ListHead)
    modifies prev, next
    ensures next.prev == prev && prev.next == next
    ensures prev != next ==> prev.prev == old(prev.prev) && next.next == old(next.next)
  {
    next.prev := prev;
    prev.next := next;
  }

  // ----- adding and deleting

  method Add(node: ListHead, head: ListHead, ghost xs: seq<ListHead>)
    requires Ring(head, xs) && node != head && node !in xs
    modifies node, head, After(head, xs, -1)
    ensures Ring(head, [node] + xs)
  {
    LinkBetween(node, head, head.next);
  }

  method AddTail(node: ListHead, head: ListHead, ghost xs: seq<ListHead>)
    requires Ring(head, xs) && node != head && node !in xs
    modifies node, head, Before(head, xs, |xs|)
    ensures Ring(head, xs + [node])
  {
    LinkBetween(node, head.prev, head);
  }

  /** `__list_del_entry`: the entry leaves the list but keeps its own links. */
  method DelEntry(entry: ListHead, ghost head: ListHead, ghost xs: seq<ListHead>)
    requires Ring(head, xs) && entry in xs
    modifies Pred(head, xs, entry), Succ(head, xs, entry)
    ensures Ring(head, Remove(xs, entry)) && entry !in Remove(xs, entry)
  {
    ghost var i := IndexOf(xs, entry);
    RemoveNoDup(xs, entry);
    LinkAcross(entry.prev, entry.next);
  }

  method Del(entry: ListHead, ghost head: ListHead, ghost xs: seq<ListHead>)
    requires Ring(head, xs) && entry in xs
    modifies entry, Pred(head, xs, entry), Succ(head, xs, entry)
    ensures Ring(head, Remove(xs, entry)) && entry !in Remove(xs, entry)
    ensures entry.next == null && entry.prev == null
  {
    DelEntry(entry, head, xs);
    entry.next := null;
    entry.prev := null;
  }

  method DelInit(entry: ListHead, ghost head: ListHead, ghost xs: seq<ListHead>)
    requires Ring(head, xs) && entry in xs
    modifies entry, Pred(head, xs, entry), Succ(head, xs, entry)
    ensures Ring(head, Remove(xs, entry)) && Ring(entry, [])
  {
    DelEntry(entry, head, xs);
    InitListHead(entry);
  }

  // ----- replacing

  /** `node` takes the place of `was`, an entry or the head itself; an empty `was` leaves `node` an empty list. */
  method Replace(was: ListHead, node: ListHead, ghost head: ListHead, ghost xs: seq<ListHead>)
    requires Ring(head, xs) && (was == head || was in xs) && node != head && node !in xs
    modifies node, Pred(head, xs, was), Succ(head, xs, was)
    ensures was == head ==> Ring(node, xs)
    ensures was in xs ==> Ring(head, xs[IndexOf(xs, was) := node])
  {
    node.next := was.next;
    node.next.prev := node;
    node.prev := was.prev;
    node.prev.next := node;
  }

  method ReplaceInit(was: ListHead, node: ListHead, ghost head: ListHead, ghost xs: seq<ListHead>)
    requires Ring(head, xs) && (was == head || was in xs) && node != head && node !in xs
    modifies was, node, Pred(head, xs, was), Succ(head, xs, was)
    ensures was == head ==> Ring(node, xs)
    ensures was in xs ==> Ring(head, xs[IndexOf(xs, was) := node])
    ensures Ring(was, [])
  {
    Replace(was, node, head, xs);
    InitListHead(was);
  }

  // ----- moving

  /** `list_move`: `from` is the list the entry is on, which may be the target itself. */
  method Move(node: ListHead, head: ListHead, ghost from: ListHead, ghost xs: seq<ListHead>, ghost ys: seq<ListHead>)
    requires Ring(from, xs) && node in xs && Ring(head, ys) && head !in xs
    modifies node, Pred(from, xs, node), Succ(from, xs, node), head, After(head, ys, -1)
    ensures from != head ==> Ring(from, Remove(xs, node)) && Ring(head, [node] + ys)
    ensures from == head ==> Ring(head, [node] + Remove(xs, node))
  {
    hide Ring;
    ghost var zs := PrepareMove(node, head, from, xs, ys);
    Neighbours(from, xs, node);
    Neighbours(head, ys, head);
    DelEntry(node, from, xs);
    Add(node, head, zs);
  }

  method MoveTail(node: ListHead, head: ListHead, ghost from: ListHead, ghost xs: seq<ListHead>, ghost ys: seq<ListHead>)
    requires Ring(from, xs) && node in xs && Ring(head, ys) && head !in xs
    modifies node, Pred(from, xs, node), Succ(from, xs, node), head, Before(head, ys, |ys|)
    ensures from != head ==> Ring(from, Remove(xs, node)) && Ring(head, ys + [node])
    ensures from == head ==> Ring(head, Remove(xs, node) + [node])
  {
    hide Ring;
    ghost var zs := PrepareMove(node, head, from, xs, ys);
    Neighbours(from, xs, node);
    Neighbours(head, ys, head);
    DelEntry(node, from, xs);
    AddTail(node, head, zs);
  }

  /** The entries of the target once the node is off its list. */
  lemma PrepareMove(node: ListHead, head: ListHead, from: ListHead, xs: seq<ListHead>, ys: seq<ListHead>) returns (zs: seq<ListHead>)
    requires Ring(from, xs) && node in xs && Ring(head, ys) && head !in xs
    ensures from == head ==> xs == ys && zs == Remove(xs, node)
    ensures from != head ==> zs == ys && from !in ys && forall x :: x in xs ==> x !in ys
    ensures node !in zs && from !in xs && forall x :: x in Remove(xs, node) ==> x in xs && x != node
  {
    RemoveNoDup(xs, node);
    if from == head {
      RingUnique(head, xs, ys);
      zs := Remove(xs, node);
    } else {
      RingsApart(from, xs, head, ys);
      zs := ys;
    }
  }

  // ----- rotating

  function RotatedLeft<T>(xs: seq<T>): (r: seq<T>)
    ensures |r| == |xs|
  {
    if xs == [] then [] else xs[1..] + [xs[0]]
  }

  method RotateLeft(head: ListHead, ghost xs: seq<ListHead>)
    requires Ring(head, xs)
    modifies head, After(head, xs, -1), Before(head, xs, |xs|), Succ(head, xs, After(head, xs, -1))
    ensures Ring(head, RotatedLeft(xs))
  {
    Tests(head, xs);
    if !ListEmpty(head) {
      var first := head.next;
      assert Remove(xs, xs[0]) + [xs[0]] == RotatedLeft(xs);
      MoveTail(first, head, head, xs, xs);
    }
  }

  function Rotated<T>(xs: seq<T>, k: nat): (r: seq<T>)
    ensures |r| == |xs|
  {
    if k == 0 then xs else RotatedLeft(Rotated(xs, k - 1))
  }

  lemma {:induction false} RotatedIs<T>(xs: seq<T>, k: nat)
    requires k <= |xs|
    ensures Rotated(xs, k) == xs[k..] + xs[..k]
  {
    if k > 0 {
      RotatedIs(xs, k - 1);
    }
  }

  /** Rotating a list as often as it is long changes nothing. */
  lemma FullRotation<T>(xs: seq<T>)
    ensures Rotated(xs, |xs|) == xs
  {
    RotatedIs(xs, |xs|);
  }

  // ----- cutting and splicing

  /** How many entries a cut after `entry` takes: all up to and including it, none when it is the head. */
  function CutAt(xs: seq<ListHead>, entry: ListHead): (k: nat)
    ensures k <= |xs|
  {
    if entry in xs then IndexOf(xs, entry) + 1 else 0
  }

  /** `__list_cut_position`. */
  method Cut(list: ListHead, head: ListHead, entry: ListHead, ghost xs: seq<ListHead>)
    requires Ring(head, xs) && entry in xs && list != head && list !in xs
    modifies list, head, xs[0], entry, Succ(head, xs, entry)
    ensures Ring(list, xs[..CutAt(xs, entry)]) && Ring(head, xs[CutAt(xs, entry)..])
  {
    var newFirst := entry.next;
    list.next := head.next;
    list.next.prev := list;
    list.prev := entry;
    entry.next := list;
    head.next := newFirst;
    newFirst.prev := head;
  }

  /** `list_cut_position`: the entries up to `entry` go to `list`, which an empty `head` leaves as it was; so does a
      list of one entry when `entry` is neither that entry nor the head. */
  method CutPosition(list: ListHead, head: ListHead, entry: ListHead, ghost xs: seq<ListHead>)
    requires Ring(head, xs) && list != head && list !in xs
    requires entry == head || entry in xs || |xs| <= 1
    modifies list, head, xs
    ensures Ring(head, xs[CutAt(xs, entry)..])
    ensures xs != [] && (entry == head || entry in xs) ==> Ring(list, xs[..CutAt(xs, entry)])
    ensures xs == [] || (entry != head && entry !in xs) ==> unchanged(list)
  {
    Tests(head, xs);
    if ListEmpty(head) {
      return;
    }
    if ListIsSingular(head) && head.next != entry && head != entry {
      return;
    }
    if entry == head {
      InitListHead(list);
    } else {
      Neighbours(head, xs, entry);
      Cut(list, head, entry, xs);
    }
  }

  /** `__list_splice`: the entries of `list` go between two neighbours, before position `i` of the other list. */
  method SpliceBetween(list: ListHead, prev: ListHead, next: ListHead,
                       ghost ys: seq<ListHead>, ghost head: ListHead, ghost xs: seq<ListHead>, ghost i: nat)
    requires Ring(list, ys) && ys != [] && Ring(head, xs) && list != head && list !in xs
    requires i <= |xs| && prev == Before(head, xs, i) && next == After(head, xs, i - 1)
    modifies ys[0], ys[|ys| - 1], prev, next
    ensures Ring(head, xs[..i] + ys + xs[i..])
  {
    RingsApart(head, xs, list, ys);
    assert forall a, b :: 0 <= a < |xs| && 0 <= b < |ys| ==> xs[a] != ys[b] by {
      assert forall a :: 0 <= a < |xs| ==> xs[a] in xs;
    }
    assert forall b :: 0 <= b < |ys| ==> ys[b] != head;
    assert forall a :: 0 <= a < |xs| ==> xs[a] != head;
    var first := list.next;
    var last := list.prev;
    first.prev := prev;
    prev.next := first;
    last.next := next;
    next.prev := last;
    Inserted(ys, head, xs, i);
  }

  lemma Inserted(ys: seq<ListHead>, head: ListHead, xs: seq<ListHead>, i: nat)
    requires NoDup(xs) && head !in xs && NoDup(ys) && head !in ys && (forall x :: x in xs ==> x !in ys) && i <= |xs| && ys != []
    requires i > 0 ==> head.next == xs[0]
    requires i < |xs| ==> head.prev == xs[|xs| - 1]
    requires forall j {:trigger xs[j].next} :: 0 <= j < |xs| && j != i - 1 ==> xs[j].next == After(head, xs, j)
    requires forall j {:trigger xs[j].prev} :: 0 <= j < |xs| && j != i ==> xs[j].prev == Before(head, xs, j)
    requires forall j {:trigger ys[j].next} :: 0 <= j < |ys| - 1 ==> ys[j].next == ys[j + 1]
    requires forall j {:trigger ys[j].prev} :: 0 < j < |ys| ==> ys[j].prev == ys[j - 1]
    requires Before(head, xs, i).next == ys[0] && ys[0].prev == Before(head, xs, i)
    requires After(head, xs, i - 1).prev == ys[|ys| - 1] && ys[|ys| - 1].next == After(head, xs, i - 1)
    ensures Ring(head, xs[..i] + ys + xs[i..])
  {
    InsertNoDup(xs, ys, i);
  }

  method Splice(list: ListHead, head: ListHead, ghost ys: seq<ListHead>, ghost xs: seq<ListHead>)
    requires Ring(list, ys) && Ring(head, xs) && list != head && list !in xs
    modifies ys, head, After(head, xs, -1)
    ensures Ring(head, ys + xs)
  {
    Tests(list, ys);
    if !ListEmpty(list) {
      SpliceBetween(list, head, head.next, ys, head, xs, 0);
    }
    assert xs[..0] + ys + xs[0..] == ys + xs;
  }

  method SpliceTail(list: ListHead, head: ListHead, ghost ys: seq<ListHead>, ghost xs: seq<ListHead>)
    requires Ring(list, ys) && Ring(head, xs) && list != head && list !in xs
    modifies ys, head, Before(head, xs, |xs|)
    ensures Ring(head, xs + ys)
  {
    Tests(list, ys);
    if !ListEmpty(list) {
      SpliceBetween(list, head.prev, head, ys, head, xs, |xs|);
    }
    assert xs[..|xs|] + ys + xs[|xs|..] == xs + ys;
  }

  method SpliceInit(list: ListHead, head: ListHead, ghost ys: seq<ListHead>, ghost xs: seq<ListHead>)
    requires Ring(list, ys) && Ring(head, xs) && list != head && list !in xs
    modifies list, ys, head, After(head, xs, -1)
    ensures Ring(head, ys + xs) && Ring(list, [])
  {
    Tests(list, ys);
    RingsApart(head, xs, list, ys);
    if !ListEmpty(list) {
      SpliceBetween(list, head, head.next, ys, head, xs, 0);
      InitListHead(list);
    }
    assert xs[..0] + ys + xs[0..] == ys + xs;
  }

  method SpliceTailInit(list: ListHead, head: ListHead, ghost ys: seq<ListHead>, ghost xs: seq<ListHead>)
    requires Ring(list, ys) && Ring(head, xs) && list != head && list !in xs
    modifies list, ys, head, Before(head, xs, |xs|)
    ensures Ring(head, xs + ys) && Ring(list, [])
  {
    Tests(list, ys);
    RingsApart(head, xs, list, ys);
    if !ListEmpty(list) {
      SpliceBetween(list, head.prev, head, ys, head, xs, |xs|);
      InitListHead(list);
    }
    assert xs[..|xs|] + ys + xs[|xs|..] == xs + ys;
  }

  /** Cutting a list anywhere and splicing the part back restores it, whatever the list and the entry. */
  method CutThenSplice(list: ListHead, head: ListHead, entry: ListHead, ghost xs: seq<ListHead>)
    requires Ring(head, xs) && Ring(list, []) && list != head && list !in xs
    requires entry == head || entry in xs || |xs| <= 1
    modifies list, head, xs
    ensures Ring(head, xs)
  {
    ghost var k := CutAt(xs, entry);
    CutPosition(list, head, entry, xs);
    Splice(list, head, xs[..k], xs[k..]);
    assert xs[..k] + xs[k..] == xs;
  }

  /** Splicing a list in and cutting after its last entry takes the same entries out again. */
  method SpliceThenCut(list: ListHead, head: ListHead, ghost ys: seq<ListHead>, ghost xs: seq<ListHead>)
    requires Ring(list, ys) && Ring(head, xs) && list != head && list !in xs
    modifies list, ys, head, xs
    ensures Ring(list, ys) && Ring(head, xs)
  {
    Tests(list, ys);
    RingsApart(head, xs, list, ys);
    var last := if ListEmpty(list) then head else list.prev;
    SpliceInit(list, head, ys, xs);
    assert ys != [] ==> (ys + xs)[|ys| - 1] == last;
    assert CutAt(ys + xs, last) == |ys|;
    CutPosition(list, head, last, ys + xs);
    assert (ys + xs)[..|ys|] == ys && (ys + xs)[|ys|..] == xs;
  }
}
