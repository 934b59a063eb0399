/** Order-preserving sequence operations: the `Array.prototype` filter, flat and slice of the source. */
module Seqs {

  /** `xs.filter(p)`: the elements satisfying p, in their original order. */
  function Filter<T>(xs: seq<T>, p: T -> bool): (r: seq<T>)
    ensures |r| <= |xs|
    ensures forall i :: 0 <= i < |r| ==> p(r[i])
  {
    if xs == [] then []
    else if p(xs[0]) then [xs[0]] + Filter(xs[1..], p) else Filter(xs[1..], p)
  }

  /** Filtering keeps every copy of a kept element and no copy of a dropped one. */
  lemma {:induction false} FilterMultiplicity<T>(xs: seq<T>, p: T -> bool, x: T)
    ensures multiset(Filter(xs, p))[x] == if p(x) then multiset(xs)[x] else 0
  {
    if xs != [] {
      FilterMultiplicity(xs[1..], p, x);
      assert xs == [xs[0]] + xs[1..];
    }
  }

  lemma {:induction false} FilterMembership<T>(xs: seq<T>, p: T -> bool, x: T)
    ensures x in Filter(xs, p) <==> x in xs && p(x)
  {
    if xs != [] {
      FilterMembership(xs[1..], p, x);
      assert xs == [xs[0]] + xs[1..];
    }
  }

  lemma {:induction false} FilterAppend<T>(xs: seq<T>, ys: seq<T>, p: T -> bool)
    ensures Filter(xs + ys, p) == Filter(xs, p) + Filter(ys, p)
  {
    if xs == [] {
      assert xs + ys == ys;
    } else {
      assert (xs + ys)[1..] == xs[1..] + ys;
      FilterAppend(xs[1..], ys, p);
    }
  }

  /** `xs.map(f)`: f applied to each element, in order. */
  function Map<A, B>(xs: seq<A>, f: A -> B): (r: seq<B>)
    ensures |r| == |xs|
  {
    if xs == [] then [] else [f(xs[0])] + Map(xs[1..], f)
  }

  /** An element of a mapped sequence is the image of an element of the original, and every image is in it. */
  lemma {:induction false} MapMembership<A, B>(xs: seq<A>, f: A -> B, y: B)
    ensures y in Map(xs, f) <==> exists x :: x in xs && y == f(x)
  {
    if xs != [] {
      MapMembership(xs[1..], f, y);
      assert xs == [xs[0]] + xs[1..];
      if y == f(xs[0]) {
        assert xs[0] in xs;
      }
      if exists x :: x in xs[1..] && y == f(x) {
        var x :| x in xs[1..] && y == f(x);
        assert x in xs;
      }
    }
  }

  /** `xss.flat()`: the concatenation of the parts, in order. */
  function Flatten<T>(xss: seq<seq<T>>): (r: seq<T>)
  {
    if xss == [] then [] else xss[0] + Flatten(xss[1..])
  }

  lemma {:induction false} FlattenAppend<T>(xss: seq<seq<T>>, yss: seq<seq<T>>)
    ensures Flatten(xss + yss) == Flatten(xss) + Flatten(yss)
  {
    if xss == [] {
      assert xss + yss == yss;
    } else {
      assert (xss + yss)[1..] == xss[1..] + yss;
      FlattenAppend(xss[1..], yss);
    }
  }

  lemma FlattenSingle<T>(xs: seq<T>)
    ensures Flatten([xs]) == xs
  {
    assert [xs][1..] == [];
  }

  /** True when the sequence has no repeated element. */
  predicate Distinct<T(==)>(xs: seq<T>)
  {
    forall i, j :: 0 <= i < j < |xs| ==> xs[i] != xs[j]
  }

  function Min(a: int, b: int): int { if a <= b then a else b }

  /** `xs.slice(0, n)` for n >= 0. */
  function Take<T>(xs: seq<T>, n: nat): (r: seq<T>)
    ensures |r| == Min(n, |xs|)
    ensures forall i :: 0 <= i < |r| ==> r[i] == xs[i]
  {
    if n <= |xs| then xs[..n] else xs
  }

  /** The set of elements of a sequence. */
  function Elems<T>(xs: seq<T>): set<T>
  {
    set x | x in xs
  }

  /** A sequence without repetitions has as many distinct elements as positions. */
  lemma {:induction false} DistinctCard<T>(xs: seq<T>)
    requires Distinct(xs)
    ensures |Elems(xs)| == |xs|
  {
    if xs != [] {
      DistinctCard(xs[1..]);
      assert Elems(xs) == {xs[0]} + Elems(xs[1..]);
      assert xs[0] !in Elems(xs[1..]);
    }
  }

  /** In a sequence without repetitions each element occurs once. */
  lemma {:induction false} DistinctMultiplicity<T>(xs: seq<T>, x: T)
    requires Distinct(xs)
    ensures multiset(xs)[x] == if x in xs then 1 else 0
  {
    if xs != [] {
      assert xs == [xs[0]] + xs[1..];
      DistinctMultiplicity(xs[1..], x);
    }
  }

  /** Two sequences without repetitions over the same elements are permutations of each other. */
  lemma SameElemsPermutation<T>(xs: seq<T>, ys: seq<T>)
    requires Distinct(xs) && Distinct(ys)
    requires Elems(xs) == Elems(ys)
    ensures multiset(xs) == multiset(ys)
  {
    forall x ensures multiset(xs)[x] == multiset(ys)[x] {
      DistinctMultiplicity(xs, x);
      DistinctMultiplicity(ys, x);
      assert x in xs <==> x in Elems(xs);
      assert x in ys <==> x in Elems(ys);
    }
  }
}
