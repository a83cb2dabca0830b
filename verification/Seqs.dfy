/** The array idioms the pages use — `filter`, `map`, a `Set` filled in
    insertion order, `flatMap` — as functions on sequences, with the facts
    about them that the page models rely on. */
module Seqs {

  /** No element occurs twice. */
  ghost predicate NoDup<T>(xs: seq<T>) {
    forall i, j :: 0 <= i < j < |xs| ==> xs[i] != xs[j]
  }

  /** `xs` is `ys` with some elements left out, the rest kept in order. */
  predicate IsSubseq<T(==)>(xs: seq<T>, ys: seq<T>)
    decreases |xs| + |ys|
  {
    || xs == []
    || (ys != [] && ((xs[0] == ys[0] && IsSubseq(xs[1..], ys[1..])) || IsSubseq(xs, ys[1..])))
  }

  /** `xs.filter(p)`: the elements satisfying `p`, in their original order. */
  function Filter<T(==)>(xs: seq<T>, p: T -> bool): (r: seq<T>)
    ensures |r| <= |xs|
    ensures forall i :: 0 <= i < |r| ==> r[i] in xs && p(r[i])
    ensures forall i :: 0 <= i < |xs| && p(xs[i]) ==> xs[i] in r
  {
    if xs == [] then [] else (if p(xs[0]) then [xs[0]] else []) + Filter(xs[1..], p)
  }

  /** `xs.map(f)`. */
  function Map<A, B>(xs: seq<A>, f: A -> B): (r: seq<B>)
    ensures |r| == |xs|
    ensures forall i :: 0 <= i < |xs| ==> r[i] == f(xs[i])
  {
    if xs == [] then [] else [f(xs[0])] + Map(xs[1..], f)
  }

  /** The groups `f(items[0])`, `f(items[1])`, ... one after the other. */
  function Flatten<A, B>(items: seq<A>, f: A -> seq<B>): seq<B> {
    if items == [] then [] else Flatten(items[..|items| - 1], f) + f(items[|items| - 1])
  }

  /** `Array.from(new Set(xs))`: each value once, where it first occurs. */
  function Distinct<T(==)>(xs: seq<T>): seq<T> {
    if xs == [] then []
    else
      var d := Distinct(xs[..|xs| - 1]);
      if xs[|xs| - 1] in d then d else d + [xs[|xs| - 1]]
  }

  /** The set built from `xs` holds each of its values exactly once. */
  lemma {:induction false} DistinctSpec<T>(xs: seq<T>)
    ensures NoDup(Distinct(xs))
    ensures forall x :: x in Distinct(xs) <==> x in xs
    ensures IsSubseq(Distinct(xs), xs)
  {
    if xs != [] {
      var init, last := xs[..|xs| - 1], xs[|xs| - 1];
      assert xs == init + [last];
      DistinctSpec(init);
      if last in Distinct(init) {
        SubseqExtend(Distinct(init), init, [last]);
      } else {
        SubseqAppend(Distinct(init), init, last);
      }
    }
  }

  /** The values of the groups are the values of the flattened sequence. */
  lemma {:induction false} FlattenMembers<A, B>(items: seq<A>, f: A -> seq<B>, y: B)
    ensures y in Flatten(items, f) <==> exists k :: 0 <= k < |items| && y in f(items[k])
  {
    if items != [] {
      var init := items[..|items| - 1];
      FlattenMembers(init, f, y);
      if y in Flatten(init, f) {
        var k :| 0 <= k < |init| && y in f(init[k]);
        assert items[k] == init[k];
      }
      if exists k :: 0 <= k < |items| && y in f(items[k]) {
        var k :| 0 <= k < |items| && y in f(items[k]);
        if k < |items| - 1 {
          assert init[k] == items[k];
        }
      }
    }
  }

  /** A `Set` filled by nested `forEach` loops, one group per item:
      `items.forEach(a => f(a).forEach(x => found.add(x)))`. The set ends up
      holding each value of every group once, in first-insertion order. */
  method CollectDistinct<A, B(==)>(items: seq<A>, f: A -> seq<B>) returns (found: seq<B>)
    ensures found == Distinct(Flatten(items, f))
    ensures NoDup(found)
    ensures forall y :: y in found <==> exists k :: 0 <= k < |items| && y in f(items[k])
  {
    found := [];
    var i := 0;
    while i < |items|
      invariant 0 <= i <= |items|
      invariant found == Distinct(Flatten(items[..i], f))
    {
      var group := f(items[i]);
      var j := 0;
      assert Flatten(items[..i], f) + group[..0] == Flatten(items[..i], f);
      while j < |group|
        invariant 0 <= j <= |group|
        invariant found == Distinct(Flatten(items[..i], f) + group[..j])
      {
        ghost var before := Flatten(items[..i], f) + group[..j];
        assert Flatten(items[..i], f) + group[..j + 1] == before + [group[j]];
        if group[j] !in found {
          found := found + [group[j]];
        }
        j := j + 1;
      }
      assert items[..i + 1][..i] == items[..i];
      assert group[..j] == group;
      i := i + 1;
    }
    assert items[..i] == items;
    DistinctSpec(Flatten(items, f));
    forall y ensures y in found <==> exists k :: 0 <= k < |items| && y in f(items[k]) {
      FlattenMembers(items, f, y);
    }
  }

  /** Appending one element to both sides keeps a subsequence. */
  lemma {:induction false} SubseqAppend<T>(xs: seq<T>, ys: seq<T>, x: T)
    requires IsSubseq(xs, ys)
    ensures IsSubseq(xs + [x], ys + [x])
    decreases |xs| + |ys|
  {
    if xs == [] {
      SubseqOfAny([x], ys);
      assert xs + [x] == [x];
    } else if xs[0] == ys[0] && IsSubseq(xs[1..], ys[1..]) {
      SubseqAppend(xs[1..], ys[1..], x);
      assert (xs + [x])[1..] == xs[1..] + [x];
      assert (ys + [x])[1..] == ys[1..] + [x];
    } else {
      SubseqAppend(xs, ys[1..], x);
      assert (ys + [x])[1..] == ys[1..] + [x];
    }
  }

  /** A one-element sequence is a subsequence of any sequence ending with it. */
  lemma {:induction false} SubseqOfAny<T>(x: seq<T>, ys: seq<T>)
    requires |x| == 1
    ensures IsSubseq(x, ys + x)
    decreases |ys|
  {
    if ys == [] {
      assert x[1..] == [];
      assert (ys + x)[1..] == [];
    } else {
      SubseqOfAny(x, ys[1..]);
      assert (ys + x)[1..] == ys[1..] + x;
    }
  }

  /** Extending the larger sequence keeps a subsequence. */
  lemma {:induction false} SubseqExtend<T>(xs: seq<T>, ys: seq<T>, tail: seq<T>)
    requires IsSubseq(xs, ys)
    ensures IsSubseq(xs, ys + tail)
    decreases |xs| + |ys|
  {
    if xs != [] {
      assert (ys + tail)[1..] == ys[1..] + tail;
      if xs[0] == ys[0] && IsSubseq(xs[1..], ys[1..]) {
        SubseqExtend(xs[1..], ys[1..], tail);
      } else {
        SubseqExtend(xs, ys[1..], tail);
      }
    }
  }

  /** A filter keeps each passing element as often as it occurs, and drops
      every other element entirely. */
  lemma {:induction false} FilterCounts<T>(xs: seq<T>, p: T -> bool)
    ensures forall x :: multiset(Filter(xs, p))[x] == if p(x) then multiset(xs)[x] else 0
  {
    if xs != [] {
      FilterCounts(xs[1..], p);
      assert xs == [xs[0]] + xs[1..];
    }
  }

  /** A filter drops elements and never reorders them. */
  lemma {:induction false} FilterIsSubseq<T>(xs: seq<T>, p: T -> bool)
    ensures IsSubseq(Filter(xs, p), xs)
  {
    if xs != [] {
      FilterIsSubseq(xs[1..], p);
      var rest := Filter(xs[1..], p);
      if p(xs[0]) {
        assert Filter(xs, p) == [xs[0]] + rest;
        assert Filter(xs, p)[1..] == rest;
      } else {
        assert Filter(xs, p) == rest;
      }
    }
  }

  /** A filter whose test every element passes returns its input. */
  lemma {:induction false} FilterKeepsAll<T>(xs: seq<T>, p: T -> bool)
    requires forall x :: x in xs ==> p(x)
    ensures Filter(xs, p) == xs
  {
    if xs != [] {
      FilterKeepsAll(xs[1..], p);
    }
  }

  /** Filtering twice with the same test is filtering once. */
  lemma FilterIdempotent<T>(xs: seq<T>, p: T -> bool)
    ensures Filter(Filter(xs, p), p) == Filter(xs, p)
  {
    FilterKeepsAll(Filter(xs, p), p);
  }

  /** A weaker test keeps everything a stronger one keeps, in the same order. */
  lemma {:induction false} FilterWeaker<T>(xs: seq<T>, p: T -> bool, q: T -> bool)
    requires forall x :: x in xs && p(x) ==> q(x)
    ensures IsSubseq(Filter(xs, p), Filter(xs, q))
  {
    if xs != [] {
      FilterWeaker(xs[1..], p, q);
      var a, b := Filter(xs[1..], p), Filter(xs[1..], q);
      if p(xs[0]) {
        assert Filter(xs, p) == [xs[0]] + a && Filter(xs, q) == [xs[0]] + b;
        assert Filter(xs, p)[1..] == a && Filter(xs, q)[1..] == b;
      } else if q(xs[0]) {
        assert Filter(xs, p) == a && Filter(xs, q) == [xs[0]] + b;
        assert Filter(xs, q)[1..] == b;
        if a != [] {
          assert a[0] in a;
          assert a[0] in xs[1..];
        }
      } else {
        assert Filter(xs, p) == a && Filter(xs, q) == b;
      }
    }
  }

  /** Filtering distributes over concatenation. */
  lemma {:induction false} FilterAppend<T>(xs: seq<T>, ys: seq<T>, p: T -> bool)
    ensures Filter(xs + ys, p) == Filter(xs, p) + Filter(ys, p)
  {
    if xs != [] {
      assert (xs + ys)[0] == xs[0];
      assert (xs + ys)[1..] == xs[1..] + ys;
      FilterAppend(xs[1..], ys, p);
    } else {
      assert xs + ys == ys;
    }
  }

  /** A filter of a duplicate-free sequence is duplicate-free. */
  lemma {:induction false} FilterNoDup<T>(xs: seq<T>, p: T -> bool)
    requires NoDup(xs)
    ensures NoDup(Filter(xs, p))
  {
    if xs != [] {
      assert NoDup(xs[1..]) by {
        forall i, j | 0 <= i < j < |xs[1..]| ensures xs[1..][i] != xs[1..][j] {
          assert xs[1..][i] == xs[i + 1] && xs[1..][j] == xs[j + 1];
        }
      }
      FilterNoDup(xs[1..], p);
      assert xs[0] !in xs[1..];
    }
  }

  /** Two filters in a row are one filter by the conjunction of their tests. */
  lemma {:induction false} FilterFilter<T>(xs: seq<T>, p: T -> bool, q: T -> bool, both: T -> bool)
    requires forall x :: both(x) == (p(x) && q(x))
    ensures Filter(Filter(xs, p), q) == Filter(xs, both)
  {
    if xs != [] {
      FilterFilter(xs[1..], p, q, both);
      var kept := Filter(xs[1..], p);
      if p(xs[0]) {
        assert Filter(xs, p) == [xs[0]] + kept;
        assert Filter(xs, p)[0] == xs[0] && Filter(xs, p)[1..] == kept;
        assert Filter(Filter(xs, p), q) == (if q(xs[0]) then [xs[0]] else []) + Filter(kept, q);
      } else {
        assert Filter(xs, p) == kept;
      }
    }
  }

  /** A filter that agrees with another on every element gives the same result. */
  lemma {:induction false} FilterSameTest<T>(xs: seq<T>, p: T -> bool, q: T -> bool)
    requires forall x :: p(x) == q(x)
    ensures Filter(xs, p) == Filter(xs, q)
  {
    if xs != [] {
      FilterSameTest(xs[1..], p, q);
    }
  }

  /** Filtering the mapped sequence by `p` equals mapping after filtering
      by `q`, the test `p` applied through `f`. */
  lemma {:induction false} FilterMap<A, B>(xs: seq<A>, f: A -> B, p: B -> bool, q: A -> bool)
    requires forall x :: q(x) == p(f(x))
    ensures Filter(Map(xs, f), p) == Map(Filter(xs, q), f)
  {
    if xs != [] {
      FilterMap(xs[1..], f, p, q);
      assert Map(xs, f)[1..] == Map(xs[1..], f);
      if q(xs[0]) {
        assert Filter(xs, q) == [xs[0]] + Filter(xs[1..], q);
        assert Filter(xs, q)[1..] == Filter(xs[1..], q);
      } else {
        assert Filter(xs, q) == Filter(xs[1..], q);
      }
    }
  }

  /** Mapping keeps a subsequence a subsequence. */
  lemma {:induction false} MapSubseq<A, B>(xs: seq<A>, ys: seq<A>, f: A -> B)
    requires IsSubseq(xs, ys)
    ensures IsSubseq(Map(xs, f), Map(ys, f))
    decreases |xs| + |ys|
  {
    if xs != [] {
      assert Map(ys, f)[1..] == Map(ys[1..], f);
      if xs[0] == ys[0] && IsSubseq(xs[1..], ys[1..]) {
        MapSubseq(xs[1..], ys[1..], f);
        assert Map(xs, f)[1..] == Map(xs[1..], f);
      } else {
        MapSubseq(xs, ys[1..], f);
      }
    }
  }
}
