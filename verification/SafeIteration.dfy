/** `list_for_each_entry_safe`: walking a list while its body takes entries off it. */
module SafeIteration {
  import opened Sequences
  import opened LinkedLists

  /** What the loop body does to an entry: nothing, `list_del`, or `list_move_tail` to another list. */
  datatype Fate = Keep | Drop | MoveAway

  /** What the body decides for each entry: any that is in neither set stays. */
  datatype Plan = Plan(drop: set<ListHead>, away: set<ListHead>) {
    function FateOf(x: ListHead): Fate {
      if x in drop then Drop else if x in away then MoveAway else Keep
    }
  }

  /** The entries with the fate, in order. */
  function Chosen(xs: seq<ListHead>, plan: Plan, f: Fate): (r: seq<ListHead>)
    ensures forall x :: x in xs ==> (x in r <==> plan.FateOf(x) == f)
    ensures forall j :: 0 <= j < |r| ==> r[j] in xs && plan.FateOf(r[j]) == f
  {
    if xs == [] then [] else
      var x := xs[|xs| - 1];
      assert forall y :: y in xs ==> y == x || y in xs[..|xs| - 1];
      Chosen(xs[..|xs| - 1], plan, f) + if plan.FateOf(x) == f then [x] else []
  }

  /** The three groups partition the entries: each is in the group of its fate alone, and none is lost or added. */
  lemma {:induction false} Partitioned(xs: seq<ListHead>, plan: Plan)
    ensures |xs| == |Chosen(xs, plan, Keep)| + |Chosen(xs, plan, Drop)| + |Chosen(xs, plan, MoveAway)|
  {
    if xs != [] {
      Partitioned(xs[..|xs| - 1], plan);
    }
  }

  lemma ChosenStep(xs: seq<ListHead>, plan: Plan, i: nat)
    requires i < |xs|
    ensures forall f :: Chosen(xs[..i + 1], plan, f) ==
              if plan.FateOf(xs[i]) == f then Chosen(xs[..i], plan, f) + [xs[i]] else Chosen(xs[..i], plan, f)
  {
    assert xs[..i + 1][..i] == xs[..i];
  }

  /** ... and the partition is stable: entries of one group keep their relative order. */
  lemma {:induction false} Stable(xs: seq<ListHead>, plan: Plan, f: Fate, a: nat, b: nat)
    requires NoDup(xs) && a < b < |Chosen(xs, plan, f)|
    ensures Chosen(xs, plan, f)[a] in xs && Chosen(xs, plan, f)[b] in xs
    ensures IndexOf(xs, Chosen(xs, plan, f)[a]) < IndexOf(xs, Chosen(xs, plan, f)[b])
  {
    var front := xs[..|xs| - 1];
    var ys := Chosen(front, plan, f);
    assert Chosen(xs, plan, f)[a] == ys[a];
    NoDupIndex(xs, IndexOf(front, ys[a]));
    if b < |ys| {
      Stable(front, plan, f, a, b);
      NoDupIndex(xs, IndexOf(front, ys[b]));
    } else {
      NoDupIndex(xs, |xs| - 1);
    }
  }

  lemma RemoveAt(ks: seq<ListHead>, rest: seq<ListHead>)
    requires rest != [] && NoDup(ks + rest)
    ensures rest[0] in ks + rest && Remove(ks + rest, rest[0]) == ks + rest[1..]
    ensures rest[0] !in ks && rest[0] !in rest[1..]
  {
    assert (ks + rest)[|ks|] == rest[0];
    NoDupIndex(ks + rest, |ks|);
    assert forall j :: 0 <= j < |ks| ==> (ks + rest)[j] == ks[j];
  }

  lemma SplitsApart(xs: seq<ListHead>, i: nat)
    requires NoDup(xs) && i <= |xs|
    ensures forall x :: x in xs[..i] ==> x !in xs[i..]
    ensures forall x :: x in xs <==> x in xs[..i] || x in xs[i..]
  {
    assert xs == xs[..i] + xs[i..];
  }

  /** An entry already deleted is on neither list any more, and every other one is on one of the two. */
  lemma DroppedApart(xs: seq<ListHead>, plan: Plan, i: nat, ys: seq<ListHead>)
    requires NoDup(xs) && i <= |xs| && forall x :: x in xs ==> x !in ys
    ensures forall x :: x in Chosen(xs[..i], plan, Drop) ==>
              x in xs && x !in Chosen(xs[..i], plan, Keep) + xs[i..] && x !in ys + Chosen(xs[..i], plan, MoveAway)
    ensures forall x :: x in Chosen(xs[..i], plan, Keep) + xs[i..] ==> x in xs
    ensures forall x :: x in ys + Chosen(xs[..i], plan, MoveAway) ==> x in ys || x in xs
  {
    SplitsApart(xs, i);
  }

  lemma NextLists(xs: seq<ListHead>, plan: Plan, i: nat, ys: seq<ListHead>)
    requires i < |xs|
    ensures var x, f := xs[i], plan.FateOf(xs[i]);
            var keep, drop, away := Chosen(xs[..i], plan, Keep), Chosen(xs[..i], plan, Drop), Chosen(xs[..i], plan, MoveAway);
            && Chosen(xs[..i + 1], plan, Keep) + xs[i + 1..] == (if f == Keep then keep + [x] else keep) + xs[i..][1..]
            && ys + Chosen(xs[..i + 1], plan, MoveAway) == (if f == MoveAway then ys + away + [x] else ys + away)
            && forall y :: y in Chosen(xs[..i + 1], plan, Drop) <==> y in drop || (f == Drop && y == x)
  {
    ChosenStep(xs, plan, i);
    assert xs[i..][1..] == xs[i + 1..];
  }

  /** One execution of the loop body, on the entry after those kept. */
  method Body(pos: ListHead, other: ListHead, f: Fate,
              ghost head: ListHead, ghost ks: seq<ListHead>, ghost rest: seq<ListHead>, ghost ms: seq<ListHead>)
    requires Ring(head, ks + rest) && rest != [] && pos == rest[0]
    requires Ring(other, ms) && other != head && other !in ks + rest
    modifies head, ks, rest, other, ms
    ensures Ring(head, (if f == Keep then ks + [pos] else ks) + rest[1..])
    ensures Ring(other, if f == MoveAway then ms + [pos] else ms)
    ensures f == Drop ==> pos.next == null && pos.prev == null
  {
    hide Ring, Succ, Pred, NoDup, Remove;
    Entries(head, ks + rest);
    RemoveAt(ks, rest);
    Neighbours(head, ks + rest, pos);
    RingsApart(head, ks + rest, other, ms);
    match f
    case Keep =>
      assert ks + [pos] + rest[1..] == ks + rest;
    case Drop =>
      Del(pos, head, ks + rest);
    case MoveAway =>
      Neighbours(other, ms, other);
      MoveTail(pos, other, head, ks + rest, ms);
  }

  /** The two lists after the first `i` entries have been dealt with. */
  ghost predicate Done(head: ListHead, other: ListHead, plan: Plan, xs: seq<ListHead>, ys: seq<ListHead>, i: nat)
    requires i <= |xs|
    reads head, xs, other, ys
  {
    && Ring(head, Chosen(xs[..i], plan, Keep) + xs[i..])
    && Ring(other, ys + Chosen(xs[..i], plan, MoveAway))
    && (forall x :: x in Chosen(xs[..i], plan, Drop) ==> x.next == null && x.prev == null)
  }

  lemma Cursor(head: ListHead, other: ListHead, plan: Plan, xs: seq<ListHead>, ys: seq<ListHead>, i: nat)
    requires i <= |xs| && Done(head, other, plan, xs, ys, i)
    ensures i < |xs| ==> xs[i].next == After(head, xs, i)
    ensures After(head, xs, i - 1).next != null
  {
    var zs := Chosen(xs[..i], plan, Keep) + xs[i..];
    assert i < |xs| ==> zs[|zs| - |xs| + i] == xs[i];
  }

  method DoEntry(pos: ListHead, other: ListHead, f: Fate, ghost head: ListHead, ghost plan: Plan,
                 ghost xs: seq<ListHead>, ghost ys: seq<ListHead>, ghost i: nat)
    requires NoDup(xs) && (forall x :: x in xs ==> x !in ys) && other != head && other !in xs && head !in xs && head !in ys
    requires i < |xs| && pos == xs[i] && f == plan.FateOf(pos) && Done(head, other, plan, xs, ys, i)
    modifies head, xs, other, ys
    ensures Done(head, other, plan, xs, ys, i + 1)
  {
    hide Ring, Chosen, NoDup, Plan.FateOf;
    DroppedApart(xs, plan, i, ys);
    NextLists(xs, plan, i, ys);
    Body(pos, other, f, head, Chosen(xs[..i], plan, Keep), xs[i..], ys + Chosen(xs[..i], plan, MoveAway));
  }

  lemma Begun(head: ListHead, other: ListHead, plan: Plan, xs: seq<ListHead>, ys: seq<ListHead>)
    requires Ring(head, xs) && Ring(other, ys) && other != head && other !in xs
    ensures Done(head, other, plan, xs, ys, 0)
    ensures NoDup(xs) && (forall x :: x in xs ==> x !in ys) && head !in xs && head !in ys
    ensures head.next == After(head, xs, -1)
  {
    RingsApart(head, xs, other, ys);
    assert [] + xs[0..] == xs && ys + [] == ys;
  }

  lemma AllDone(head: ListHead, other: ListHead, plan: Plan, xs: seq<ListHead>, ys: seq<ListHead>)
    requires Done(head, other, plan, xs, ys, |xs|)
    ensures Ring(head, Chosen(xs, plan, Keep)) && Ring(other, ys + Chosen(xs, plan, MoveAway))
    ensures forall x :: x in Chosen(xs, plan, Drop) ==> x.next == null && x.prev == null
  {
    hide Ring, Chosen;
    assert xs[..|xs|] == xs;
    assert Chosen(xs, plan, Keep) + xs[|xs|..] == Chosen(xs, plan, Keep);
  }

  /** The loop ends, visits every entry of the list as it stood, once and in order, and leaves those kept; those moved
      away follow what the other list held. */
  method ForEachSafe(head: ListHead, other: ListHead, plan: Plan, ghost xs: seq<ListHead>, ghost ys: seq<ListHead>)
    returns (visited: seq<ListHead>)
    requires Ring(head, xs) && Ring(other, ys) && other != head && other !in xs
    modifies head, xs, other, ys
    ensures visited == xs
    ensures Ring(head, Chosen(xs, plan, Keep))
    ensures Ring(other, ys + Chosen(xs, plan, MoveAway))
    ensures forall x :: x in Chosen(xs, plan, Drop) ==> x.next == null && x.prev == null
  {
    hide Chosen, Ring, Done, NoDup;
    Begun(head, other, plan, xs, ys);
    Cursor(head, other, plan, xs, ys, 0);
    visited := [];
    var pos := head.next;
    var n := pos.next;
    ghost var i := 0;
    while pos != head
      invariant i <= |xs| && visited == xs[..i] && pos == After(head, xs, i - 1) && n == pos.next
      invariant Done(head, other, plan, xs, ys, i)
      decreases |xs| - i
    {
      visited := visited + [pos];
      Cursor(head, other, plan, xs, ys, i);
      DoEntry(pos, other, plan.FateOf(pos), head, plan, xs, ys, i);
      pos := n;
      i := i + 1;
      Cursor(head, other, plan, xs, ys, i);
      n := n.next;
    }
    AllDone(head, other, plan, xs, ys);
  }
}
