/** Java's nullable references, as an explicit choice between no value and a value. */
module Wrappers {

  /** `None` stands for Java's `null`. */
  datatype Option<+T> = None | Some(value: T)

  /** The present values of `xs`, in order. */
  function Somes<T>(xs: seq<Option<T>>): (r: seq<T>)
    ensures |r| <= |xs|
  {
    if xs == [] then []
    else Somes(xs[..|xs| - 1]) + (if xs[|xs| - 1].Some? then [xs[|xs| - 1].value] else [])
  }

  /** One more option adds its value, if any, at the end. */
  lemma SomesSnoc<T>(xs: seq<Option<T>>, x: Option<T>)
    ensures Somes(xs + [x]) == Somes(xs) + (if x.Some? then [x.value] else [])
  {
    assert (xs + [x])[..|xs|] == xs;
  }

  /** When every option is present, nothing is dropped. */
  lemma {:induction false} SomesOfAll<T>(xs: seq<Option<T>>, ys: seq<T>)
    requires |xs| == |ys|
    requires forall i :: 0 <= i < |xs| ==> xs[i] == Some(ys[i])
    ensures Somes(xs) == ys
  {
    if xs != [] {
      var n := |xs|;
      SomesOfAll(xs[..n - 1], ys[..n - 1]);
      assert ys[..n - 1] + [ys[n - 1]] == ys;
    }
  }

  /** Some element at an index from `lo` up to, but not including, `hi` satisfies `p`. */
  predicate SomeBetween<T>(p: T -> bool, xs: seq<T>, lo: nat, hi: nat)
    requires hi <= |xs|
  {
    hi > lo && (SomeBetween(p, xs, lo, hi - 1) || p(xs[hi - 1]))
  }

  /** A witness below `hi` is a witness below any larger bound. */
  lemma {:induction false} SomeBetweenGrows<T>(p: T -> bool, xs: seq<T>, lo: nat, hi: nat, hi': nat)
    requires hi <= hi' <= |xs|
    requires SomeBetween(p, xs, lo, hi)
    ensures SomeBetween(p, xs, lo, hi')
    decreases hi'
  {
    if hi < hi' {
      SomeBetweenGrows(p, xs, lo, hi, hi' - 1);
    }
  }

  /** Elements appended after `hi` do not change the answer below `hi`. */
  lemma {:induction false} SomeBetweenAppend<T>(p: T -> bool, xs: seq<T>, more: seq<T>, lo: nat, hi: nat)
    requires hi <= |xs|
    ensures SomeBetween(p, xs + more, lo, hi) == SomeBetween(p, xs, lo, hi)
    decreases hi
  {
    if hi > lo {
      SomeBetweenAppend(p, xs, more, lo, hi - 1);
      assert (xs + more)[hi - 1] == xs[hi - 1];
    }
  }

  /** A slice one element longer ends with that element. */
  lemma SliceSnoc<T>(s: seq<T>, lo: nat, hi: nat)
    requires lo <= hi < |s|
    ensures s[lo..hi + 1] == s[lo..hi] + [s[hi]]
  {
  }

  /** `f` applied to every element, in order. */
  function MapSeq<T, U>(f: T -> U, xs: seq<T>): (r: seq<U>)
    ensures |r| == |xs|
  {
    if xs == [] then [] else MapSeq(f, xs[..|xs| - 1]) + [f(xs[|xs| - 1])]
  }

  lemma MapSeqSnoc<T, U>(f: T -> U, xs: seq<T>, x: T)
    ensures MapSeq(f, xs + [x]) == MapSeq(f, xs) + [f(x)]
  {
    assert (xs + [x])[..|xs|] == xs;
  }

  /** Element `i` of the image is `f` of element `i`. */
  lemma {:induction false} MapSeqAt<T, U>(f: T -> U, xs: seq<T>, i: nat)
    requires i < |xs|
    ensures MapSeq(f, xs)[i] == f(xs[i])
  {
    if i < |xs| - 1 {
      MapSeqAt(f, xs[..|xs| - 1], i);
    }
  }

  /** Mapping one more element of a slice adds its value, if any, at the end. */
  lemma SomesMapStep<T, U>(f: T -> Option<U>, xs: seq<T>, lo: nat, i: nat)
    requires lo <= i < |xs|
    ensures Somes(MapSeq(f, xs[lo..i + 1])) ==
              Somes(MapSeq(f, xs[lo..i])) + (if f(xs[i]).Some? then [f(xs[i]).value] else [])
  {
    SliceSnoc(xs, lo, i);
    MapSeqSnoc(f, xs[lo..i], xs[i]);
    SomesSnoc(MapSeq(f, xs[lo..i]), f(xs[i]));
  }

  /** The elements of `xs` that `keep` accepts, in order. */
  function Filter<T>(keep: T -> bool, xs: seq<T>): seq<T>
  {
    if xs == [] then []
    else Filter(keep, xs[..|xs| - 1]) + (if keep(xs[|xs| - 1]) then [xs[|xs| - 1]] else [])
  }

  lemma FilterSnoc<T>(keep: T -> bool, xs: seq<T>, x: T)
    ensures Filter(keep, xs + [x]) == Filter(keep, xs) + (if keep(x) then [x] else [])
  {
    assert (xs + [x])[..|xs|] == xs;
  }

  /** An element is kept exactly when it is one of `xs` and accepted; nothing is added. */
  lemma {:induction false} FilterSpec<T>(keep: T -> bool, xs: seq<T>)
    ensures |Filter(keep, xs)| <= |xs|
    ensures forall x :: x in Filter(keep, xs) <==> x in xs && keep(x)
  {
    if xs != [] {
      var front := xs[..|xs| - 1];
      FilterSpec(keep, front);
      assert xs == front + [xs[|xs| - 1]];
    }
  }

  /** When every element is accepted, all are kept, in order. */
  lemma {:induction false} FilterAll<T>(keep: T -> bool, xs: seq<T>)
    requires forall x :: x in xs ==> keep(x)
    ensures Filter(keep, xs) == xs
  {
    if xs != [] {
      var front := xs[..|xs| - 1];
      assert xs == front + [xs[|xs| - 1]];
      FilterAll(keep, front);
    }
  }
}
