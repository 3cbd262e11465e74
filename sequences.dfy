/** `Array.prototype.find`, `filter` and `slice(0, n)` over sequences. */
module Sequences {

  /** The index `find` stops at: the first element satisfying `p`, or `|xs|`
      when there is none. */
  function FirstIndex<T>(xs: seq<T>, p: T -> bool): (i: nat)
    ensures i <= |xs|
    ensures i < |xs| ==> p(xs[i])
    ensures forall j :: 0 <= j < i ==> !p(xs[j])
  {
    if xs == [] then 0
    else if p(xs[0]) then 0
    else 1 + FirstIndex(xs[1..], p)
  }

  /** `xs.filter(p)`: the elements satisfying `p`, in their original order. */
  function Filter<T>(xs: seq<T>, p: T -> bool): (r: seq<T>)
    ensures |r| <= |xs|
    ensures forall i :: 0 <= i < |r| ==> r[i] in xs && p(r[i])
    ensures forall j :: 0 <= j < |xs| && p(xs[j]) ==> xs[j] in r
  {
    if xs == [] then []
    else (if p(xs[0]) then [xs[0]] else []) + Filter(xs[1..], p)
  }

  /** A one-element list keeps its element exactly when it passes. */
  lemma FilterSingleton<T>(x: T, p: T -> bool)
    ensures Filter([x], p) == if p(x) then [x] else []
  {
    assert [x][1..] == [];
  }

  /** Filtering distributes over concatenation; with `FilterSingleton` this
      fixes the result as the order-preserving subsequence of the elements
      that pass, with their multiplicity. */
  lemma {:induction false} FilterAppend<T>(xs: seq<T>, ys: seq<T>, p: T -> bool)
    ensures Filter(xs + ys, p) == Filter(xs, p) + Filter(ys, p)
  {
    if xs == [] {
      assert xs + ys == ys;
    } else {
      assert (xs + ys)[1..] == xs[1..] + ys;
      FilterAppend(xs[1..], ys, p);
    }
  }

  /** `xs.slice(0, n)`. */
  function Take<T>(xs: seq<T>, n: nat): (r: seq<T>)
    ensures |r| <= n && |r| <= |xs|
    ensures r == xs[..|r|]
    ensures |r| == n || r == xs
  {
    if |xs| <= n then xs else xs[..n]
  }

  /** `filter(p).slice(0, n)` keeps exactly the matches of some prefix of
      `xs`, and that prefix is all of `xs` unless `n` matches were found in
      it: no match is skipped before the cut-off. */
  lemma {:induction false} FirstMatches<T>(xs: seq<T>, p: T -> bool, n: nat) returns (k: nat)
    ensures k <= |xs|
    ensures Take(Filter(xs, p), n) == Filter(xs[..k], p)
    ensures k < |xs| ==> |Filter(xs[..k], p)| == n
  {
    if n == 0 || xs == [] {
      k := 0;
      assert xs[..0] == [];
    } else {
      var m := if p(xs[0]) then n - 1 else n;
      var k' := FirstMatches(xs[1..], p, m);
      k := k' + 1;
      assert xs[..k][1..] == xs[1..][..k'];
      assert xs[..k][0] == xs[0];
    }
  }
}
