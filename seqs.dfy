/** Sequence helpers shared by the handlers: JavaScript's `Array.prototype.filter`
    and insertion-ordered `Set`s, written over Dafny sequences. */
module Seqs {

  /** `xs.filter(p)`: the elements satisfying `p`, in their original order. */
  function Filter<T(!new)>(xs: seq<T>, p: T -> bool): (r: seq<T>)
    ensures |r| <= |xs|
    ensures forall x :: x in r <==> x in xs && p(x)
  {
    if xs == [] then []
    else Filter(xs[..|xs| - 1], p) + (if p(xs[|xs| - 1]) then [xs[|xs| - 1]] else [])
  }

  lemma {:induction false} FilterConcat<T(!new)>(xs: seq<T>, ys: seq<T>, p: T -> bool)
    ensures Filter(xs + ys, p) == Filter(xs, p) + Filter(ys, p)
  {
    if ys == [] {
      assert xs + ys == xs;
    } else {
      var n := |ys| - 1;
      assert (xs + ys)[..|xs + ys| - 1] == xs + ys[..n];
      FilterConcat(xs, ys[..n], p);
    }
  }

  /** Two filters whose predicates agree on every element select the same elements. */
  lemma {:induction false} FilterSame<T(!new)>(xs: seq<T>, p: T -> bool, q: T -> bool)
    requires forall x :: x in xs ==> p(x) == q(x)
    ensures Filter(xs, p) == Filter(xs, q)
  {
    if xs != [] {
      FilterSame(xs[..|xs| - 1], p, q);
    }
  }

  /** A filter that keeps every element is the identity. */
  lemma {:induction false} FilterAll<T(!new)>(xs: seq<T>, p: T -> bool)
    requires forall x :: x in xs ==> p(x)
    ensures Filter(xs, p) == xs
  {
    if xs != [] {
      var n := |xs| - 1;
      FilterAll(xs[..n], p);
      assert p(xs[n]);
      assert Filter(xs, p) == xs[..n] + [xs[n]];
    }
  }

  predicate Distinct<T(==)>(xs: seq<T>) {
    forall i, j :: 0 <= i < j < |xs| ==> xs[i] != xs[j]
  }

  /** `set.add(x)` on an insertion-ordered set. */
  function AddToSet<T(!new,==)>(xs: seq<T>, x: T): (r: seq<T>)
    ensures Distinct(xs) ==> Distinct(r)
    ensures forall y :: y in r <==> y in xs || y == x
    ensures |xs| <= |r| && r[..|xs|] == xs
  {
    if x in xs then xs else xs + [x]
  }

  /** `new Set(xs)` iterated: the elements in order of first occurrence. */
  function Dedup<T(!new,==)>(xs: seq<T>): (r: seq<T>)
    ensures Distinct(r)
    ensures forall y :: y in r <==> y in xs
    ensures |r| <= |xs|
  {
    if xs == [] then [] else AddToSet(Dedup(xs[..|xs| - 1]), xs[|xs| - 1])
  }

  lemma {:induction false} DedupDistinct<T(!new)>(xs: seq<T>)
    requires Distinct(xs)
    ensures Dedup(xs) == xs
  {
    if xs != [] {
      var n := |xs| - 1;
      assert Distinct(xs[..n]);
      DedupDistinct(xs[..n]);
      assert xs[n] !in xs[..n];
      assert xs[..n] + [xs[n]] == xs;
    }
  }

  /** The sum of `f` over `xs`, accumulated from the front as a loop does. */
  function SumBy<T>(xs: seq<T>, f: T -> int): int {
    if xs == [] then 0 else SumBy(xs[..|xs| - 1], f) + f(xs[|xs| - 1])
  }

  lemma {:induction false} SumByConcat<T>(xs: seq<T>, ys: seq<T>, f: T -> int)
    ensures SumBy(xs + ys, f) == SumBy(xs, f) + SumBy(ys, f)
  {
    if ys == [] {
      assert xs + ys == xs;
    } else {
      var n := |ys| - 1;
      assert (xs + ys)[..|xs + ys| - 1] == xs + ys[..n];
      SumByConcat(xs, ys[..n], f);
    }
  }

  /** Summing after a filter is summing `g`, which is `f` where `p` holds and 0 elsewhere. */
  lemma {:induction false} SumByFilter<T(!new)>(xs: seq<T>, p: T -> bool, f: T -> int, g: T -> int)
    requires forall x :: x in xs ==> g(x) == if p(x) then f(x) else 0
    ensures SumBy(Filter(xs, p), f) == SumBy(xs, g)
  {
    if xs != [] {
      var n := |xs| - 1;
      assert xs[n] in xs;
      SumByFilter(xs[..n], p, f, g);
      SumByFilterSnoc(xs, p, f);
    }
  }

  lemma SumByFilterSnoc<T(!new)>(xs: seq<T>, p: T -> bool, f: T -> int)
    requires xs != []
    ensures var n := |xs| - 1;
      SumBy(Filter(xs, p), f) == SumBy(Filter(xs[..n], p), f) + if p(xs[n]) then f(xs[n]) else 0
  {
    var n := |xs| - 1;
    var kept := Filter(xs[..n], p);
    if p(xs[n]) {
      assert (kept + [xs[n]])[..|kept + [xs[n]]| - 1] == kept;
    } else {
      assert kept + [] == kept;
    }
  }

  /** Sums of pointwise related functions: `h = f + g` on every element. */
  lemma {:induction false} SumByAdd<T>(xs: seq<T>, f: T -> int, g: T -> int, h: T -> int)
    requires forall x :: x in xs ==> h(x) == f(x) + g(x)
    ensures SumBy(xs, h) == SumBy(xs, f) + SumBy(xs, g)
  {
    if xs != [] {
      SumByAdd(xs[..|xs| - 1], f, g, h);
    }
  }

  lemma {:induction false} SumByNegate<T>(xs: seq<T>, f: T -> int, g: T -> int)
    requires forall x :: x in xs ==> g(x) == -f(x)
    ensures SumBy(xs, g) == -SumBy(xs, f)
  {
    if xs != [] {
      SumByNegate(xs[..|xs| - 1], f, g);
    }
  }

  lemma {:induction false} SumBySame<T>(xs: seq<T>, f: T -> int, g: T -> int)
    requires forall x :: x in xs ==> g(x) == f(x)
    ensures SumBy(xs, g) == SumBy(xs, f)
  {
    if xs != [] {
      SumBySame(xs[..|xs| - 1], f, g);
    }
  }

  /** One more element adds its term (the step a loop takes). */
  lemma SumBySnoc<T>(xs: seq<T>, i: int, f: T -> int)
    requires 0 <= i < |xs|
    ensures SumBy(xs[..i + 1], f) == SumBy(xs[..i], f) + f(xs[i])
  {
    assert xs[..i + 1][..i] == xs[..i];
  }

  lemma {:induction false} SumByNonNegative<T>(xs: seq<T>, f: T -> int)
    requires forall x :: x in xs ==> f(x) >= 0
    ensures SumBy(xs, f) >= 0
  {
    if xs != [] {
      SumByNonNegative(xs[..|xs| - 1], f);
    }
  }

  /** Appending one element adds its term. */
  lemma SumByAppend<T>(xs: seq<T>, x: T, f: T -> int)
    ensures SumBy(xs + [x], f) == SumBy(xs, f) + f(x)
  {
    assert (xs + [x])[..|xs + [x]| - 1] == xs;
  }

  /** Replacing one element changes the sum by the difference of its terms. */
  lemma {:induction false} SumByUpdate<T>(xs: seq<T>, k: int, x: T, f: T -> int)
    requires 0 <= k < |xs|
    ensures SumBy(xs[k := x], f) == SumBy(xs, f) - f(xs[k]) + f(x)
  {
    var n := |xs| - 1;
    if k == n {
      assert xs[k := x][..n] == xs[..n];
    } else {
      assert xs[k := x][..n] == xs[..n][k := x];
      SumByUpdate(xs[..n], k, x, f);
    }
  }

  /** A filter that keeps nothing yields the empty sequence. */
  lemma {:induction false} FilterNone<T(!new)>(xs: seq<T>, p: T -> bool)
    requires forall x :: x in xs ==> !p(x)
    ensures Filter(xs, p) == []
  {
    if xs != [] {
      FilterNone(xs[..|xs| - 1], p);
    }
  }

  lemma {:induction false} SumByZero<T>(xs: seq<T>, f: T -> int)
    requires forall x :: x in xs ==> f(x) == 0
    ensures SumBy(xs, f) == 0
  {
    if xs != [] {
      SumByZero(xs[..|xs| - 1], f);
    }
  }

  /** Over a duplicate-free sequence, changing `f` at one element changes the sum by
      the difference there. */
  lemma {:induction false} SumByPoint<T>(xs: seq<T>, x: T, f: T -> int, g: T -> int)
    requires Distinct(xs)
    requires forall y :: y in xs && y != x ==> g(y) == f(y)
    ensures SumBy(xs, g) == SumBy(xs, f) + (if x in xs then g(x) - f(x) else 0)
  {
    if xs != [] {
      var n := |xs| - 1;
      assert Distinct(xs[..n]);
      SumByPoint(xs[..n], x, f, g);
      if xs[n] == x {
        assert x !in xs[..n];
      } else {
        assert x in xs <==> x in xs[..n];
      }
    }
  }
}
