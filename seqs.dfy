/**
 * The two list updates the source uses everywhere: `xs.filter(p)` and
 * `xs.map(x => p(x) ? f(x) : x)`, with what they keep and what they change.
 */
module Seqs {

  /** `xs` occurs in `ys` in the same order, possibly with gaps. */
  ghost predicate IsSubsequence<T>(xs: seq<T>, ys: seq<T>)
    decreases |ys|
  {
    if ys == [] then xs == []
    else (xs != [] && xs[0] == ys[0] && IsSubsequence(xs[1..], ys[1..]))
         || IsSubsequence(xs, ys[1..])
  }

  /** `xs.filter(p)`: the elements satisfying `p`, in their original order. */
  function Filter<T>(xs: seq<T>, p: T -> bool): (r: seq<T>)
    ensures |r| <= |xs|
    ensures forall i :: 0 <= i < |r| ==> r[i] in xs && p(r[i])
    ensures forall i :: 0 <= i < |xs| && p(xs[i]) ==> xs[i] in r
    ensures IsSubsequence(r, xs)
  {
    if xs == [] then []
    else
      var rest := Filter(xs[1..], p);
      assert xs == [xs[0]] + xs[1..];
      if p(xs[0]) then
        var r := [xs[0]] + rest;
        assert r[1..] == rest;
        r
      else rest
  }

  /** `xs.map(x => p(x) ? f(x) : x)`: only the elements satisfying `p` change. */
  function ReplaceWhere<T>(xs: seq<T>, p: T -> bool, f: T -> T): (r: seq<T>)
    ensures |r| == |xs|
    ensures forall i :: 0 <= i < |xs| ==> r[i] == if p(xs[i]) then f(xs[i]) else xs[i]
  {
    if xs == [] then []
    else [if p(xs[0]) then f(xs[0]) else xs[0]] + ReplaceWhere(xs[1..], p, f)
  }

  /** Filtering keeps everything when every element qualifies. */
  lemma {:induction false} FilterAll<T>(xs: seq<T>, p: T -> bool)
    requires forall x :: x in xs ==> p(x)
    ensures Filter(xs, p) == xs
  {
    if xs != [] {
      assert xs[0] in xs;
      forall x | x in xs[1..] ensures p(x) { assert x in xs; }
      FilterAll(xs[1..], p);
      assert xs == [xs[0]] + xs[1..];
    }
  }

  /** Filters whose tests agree on every element of `xs` keep the same elements. */
  lemma {:induction false} FilterSame<T>(xs: seq<T>, p: T -> bool, q: T -> bool)
    requires forall x :: x in xs ==> p(x) == q(x)
    ensures Filter(xs, p) == Filter(xs, q)
  {
    if xs != [] {
      assert xs[0] in xs;
      forall x | x in xs[1..] ensures p(x) == q(x) { assert x in xs; }
      FilterSame(xs[1..], p, q);
    }
  }

  /** Two filters in a row are one filter by the conjunction, whichever comes first. */
  lemma {:induction false} FilterFilter<T>(xs: seq<T>, p: T -> bool, q: T -> bool)
    ensures Filter(Filter(xs, p), q) == Filter(xs, x => p(x) && q(x))
    ensures Filter(Filter(xs, p), q) == Filter(Filter(xs, q), p)
  {
    if xs != [] {
      FilterFilter(xs[1..], p, q);
      var pq := x => p(x) && q(x);
      if p(xs[0]) {
        assert Filter(xs, p) == [xs[0]] + Filter(xs[1..], p);
        assert ([xs[0]] + Filter(xs[1..], p))[1..] == Filter(xs[1..], p);
      }
      if q(xs[0]) {
        assert Filter(xs, q) == [xs[0]] + Filter(xs[1..], q);
        assert ([xs[0]] + Filter(xs[1..], q))[1..] == Filter(xs[1..], q);
      }
    }
  }

  /** `xs.map(f)`. */
  function Map<A, B>(xs: seq<A>, f: A -> B): (r: seq<B>)
    ensures |r| == |xs|
    ensures forall i :: 0 <= i < |xs| ==> r[i] == f(xs[i])
  {
    seq(|xs|, i requires 0 <= i < |xs| => f(xs[i]))
  }

  /** Replacing where nothing qualifies changes nothing. */
  lemma ReplaceWhereNone<T>(xs: seq<T>, p: T -> bool, f: T -> T)
    requires forall x :: x in xs ==> !p(x)
    ensures ReplaceWhere(xs, p, f) == xs
  {
    var r := ReplaceWhere(xs, p, f);
    forall i | 0 <= i < |xs| ensures r[i] == xs[i] { assert xs[i] in xs; }
  }

  /** Every sequence is a subsequence of itself. */
  lemma {:induction false} SubsequenceOfSelf<T>(xs: seq<T>)
    ensures IsSubsequence(xs, xs)
  {
    if xs != [] {
      SubsequenceOfSelf(xs[1..]);
    }
  }
}
