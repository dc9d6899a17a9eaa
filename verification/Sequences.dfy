/** Facts about finite sequences shared by the list, registry and relay models. */
module Sequences {

  predicate NoDup<T(==)>(xs: seq<T>) {
    forall i, j :: 0 <= i < j < |xs| ==> xs[i] != xs[j]
  }

  /** The position of the first occurrence of `x`. */
  function IndexOf<T(==)>(xs: seq<T>, x: T): (i: nat)
    requires x in xs
    ensures i < |xs| && xs[i] == x
    ensures forall j :: 0 <= j < i ==> xs[j] != x
  {
    if xs[0] == x then 0 else 1 + IndexOf(xs[1..], x)
  }

  /** `xs` without the first occurrence of `x`. */
  function Remove<T(==)>(xs: seq<T>, x: T): (r: seq<T>)
    requires x in xs
    ensures |r| == |xs| - 1
  {
    var i := IndexOf(xs, x);
    xs[..i] + xs[i + 1..]
  }

  lemma RemoveNoDup<T>(xs: seq<T>, x: T)
    requires x in xs && NoDup(xs)
    ensures NoDup(Remove(xs, x))
    ensures forall y :: y in Remove(xs, x) <==> y in xs && y != x
  {
    var i := IndexOf(xs, x);
    assert forall y :: y in xs <==> y in xs[..i] || y == x || y in xs[i + 1..] by {
      assert xs == xs[..i] + [x] + xs[i + 1..];
    }
  }

  lemma RemoveInsert<T>(xs: seq<T>, x: T)
    requires x in xs
    ensures var i, r := IndexOf(xs, x), Remove(xs, x); r[..i] + [x] + r[i..] == xs
  {
  }

  lemma NoDupIndex<T>(xs: seq<T>, i: nat)
    requires NoDup(xs) && i < |xs|
    ensures IndexOf(xs, xs[i]) == i
  {
  }

  lemma AppendNoDup<T>(xs: seq<T>, ys: seq<T>)
    requires NoDup(xs) && NoDup(ys) && (forall x :: x in xs ==> x !in ys)
    ensures NoDup(xs + ys)
  {
    assert forall i :: 0 <= i < |xs| ==> (xs + ys)[i] in xs;
    assert forall i :: |xs| <= i < |xs + ys| ==> (xs + ys)[i] in ys;
  }

  lemma InsertNoDup<T>(xs: seq<T>, ys: seq<T>, i: nat)
    requires NoDup(xs) && NoDup(ys) && (forall x :: x in xs ==> x !in ys) && i <= |xs|
    ensures NoDup(xs[..i] + ys + xs[i..])
  {
    assert forall x :: x in xs[..i] || x in xs[i..] ==> x in xs;
    AppendNoDup(xs[..i], ys);
    AppendNoDup(xs[..i] + ys, xs[i..]);
  }

  function Flatten<T>(xss: seq<seq<T>>): seq<T> {
    if xss == [] then [] else Flatten(xss[..|xss| - 1]) + xss[|xss| - 1]
  }

  lemma FlattenAppend<T>(xss: seq<seq<T>>, ys: seq<T>)
    ensures Flatten(xss + [ys]) == Flatten(xss) + ys
  {
    assert (xss + [ys])[..|xss|] == xss;
  }

  lemma {:induction false} FlattenConcat<T>(xss: seq<seq<T>>, yss: seq<seq<T>>)
    ensures Flatten(xss + yss) == Flatten(xss) + Flatten(yss)
  {
    if yss == [] {
      assert xss + yss == xss;
    } else {
      assert (xss + yss)[..|xss + yss| - 1] == xss + yss[..|yss| - 1];
      FlattenConcat(xss, yss[..|yss| - 1]);
    }
  }
}
