/** The array built-ins the pages chain together (`slice(0, n)`, `filter`, `find`, `map`),
    with the order facts the views rely on: prefix, order-preserving subsequence,
    first match. */
module JsArray {
  import opened JsValue

  /** `xs.slice(0, n)` for a non-negative `n`: the first `n` elements, or all of them. */
  function Slice<T>(xs: seq<T>, n: nat): (r: seq<T>)
    ensures |r| <= n && |r| <= |xs|
    ensures r == xs[..|r|]
    ensures |xs| <= n ==> r == xs
    ensures n <= |xs| ==> |r| == n
  {
    if |xs| <= n then xs else xs[..n]
  }

  /** `xs.map(f)`. */
  function Map<A, B>(f: A -> B, xs: seq<A>): (r: seq<B>)
    ensures |r| == |xs|
    ensures forall i :: 0 <= i < |xs| ==> r[i] == f(xs[i])
  {
    if xs == [] then [] else [f(xs[0])] + Map(f, xs[1..])
  }

  /** `xs.filter(p)`: every kept element satisfies `p`, and every element of `xs` that
      satisfies `p` is kept. */
  function Filter<T>(p: T -> bool, xs: seq<T>): (r: seq<T>)
    ensures |r| <= |xs|
    ensures forall i :: 0 <= i < |r| ==> p(r[i]) && r[i] in xs
    ensures forall i :: 0 <= i < |xs| && p(xs[i]) ==> xs[i] in r
  {
    if xs == [] then []
    else (if p(xs[0]) then [xs[0]] else []) + Filter(p, xs[1..])
  }

  /** `filter` keeps each value exactly as often as it occurs in `xs` when it satisfies
      `p`, and drops it entirely otherwise. */
  lemma {:induction false} FilterCounts<T(!new)>(p: T -> bool, xs: seq<T>)
    ensures forall x :: multiset(Filter(p, xs))[x] == if p(x) then multiset(xs)[x] else 0
  {
    if xs != [] {
      FilterCounts(p, xs[1..]);
      assert xs == [xs[0]] + xs[1..];
    }
  }

  /** `idx` places the elements of `s` at strictly increasing positions of `t`. */
  ghost predicate IsEmbedding<T>(idx: seq<nat>, s: seq<T>, t: seq<T>) {
    && |idx| == |s|
    && (forall k :: 0 <= k < |idx| ==> idx[k] < |t| && s[k] == t[idx[k]])
    && (forall k, l :: 0 <= k < l < |idx| ==> idx[k] < idx[l])
  }

  /** `s` is obtained from `t` by deleting elements, without reordering the rest. */
  ghost predicate IsSubsequence<T>(s: seq<T>, t: seq<T>) {
    exists idx :: IsEmbedding(idx, s, t)
  }

  /** An embedding into the tail of `t` shifts by one into `t` itself. */
  lemma EmbedInTail<T>(idx: seq<nat>, s: seq<T>, t: seq<T>) returns (shifted: seq<nat>)
    requires t != [] && IsEmbedding(idx, s, t[1..])
    ensures IsEmbedding(shifted, s, t)
    ensures forall k :: 0 <= k < |shifted| ==> 0 < shifted[k]
  {
    shifted := seq(|idx|, k requires 0 <= k < |idx| => idx[k] + 1);
    forall k | 0 <= k < |shifted|
      ensures shifted[k] < |t| && s[k] == t[shifted[k]]
    {
      assert t[1..][idx[k]] == t[idx[k] + 1];
    }
  }

  /** Position 0 can be put in front of an embedding that avoids it. */
  lemma EmbedHead<T>(idx: seq<nat>, s: seq<T>, t: seq<T>) returns (r: seq<nat>)
    requires t != [] && IsEmbedding(idx, s, t)
    requires forall k :: 0 <= k < |idx| ==> 0 < idx[k]
    ensures IsEmbedding(r, [t[0]] + s, t)
  {
    r := [0] + idx;
    forall k | 0 <= k < |r|
      ensures r[k] < |t| && ([t[0]] + s)[k] == t[r[k]]
    {
      if k > 0 {
        assert r[k] == idx[k - 1];
      }
    }
  }

  /** The positions of `xs` that `filter` keeps, in increasing order. */
  lemma {:induction false} FilterEmbedding<T>(p: T -> bool, xs: seq<T>) returns (idx: seq<nat>)
    ensures IsEmbedding(idx, Filter(p, xs), xs)
  {
    if xs == [] {
      idx := [];
    } else {
      var tail := Filter(p, xs[1..]);
      var rest := FilterEmbedding(p, xs[1..]);
      var shifted := EmbedInTail(rest, tail, xs);
      if p(xs[0]) {
        assert Filter(p, xs) == [xs[0]] + tail;
        idx := EmbedHead(shifted, tail, xs);
      } else {
        assert Filter(p, xs) == tail;
        idx := shifted;
      }
    }
  }

  /** `filter` never reorders: its result is a subsequence of its input. */
  lemma FilterIsSubsequence<T>(p: T -> bool, xs: seq<T>)
    ensures IsSubsequence(Filter(p, xs), xs)
  {
    var idx := FilterEmbedding(p, xs);
  }

  /** A list whose elements all satisfy `p` passes through `filter` unchanged. */
  lemma {:induction false} FilterKeepsAll<T>(p: T -> bool, xs: seq<T>)
    requires forall i :: 0 <= i < |xs| ==> p(xs[i])
    ensures Filter(p, xs) == xs
  {
    if xs != [] {
      FilterKeepsAll(p, xs[1..]);
    }
  }

  /** Filtering twice by the same predicate is filtering once. */
  lemma FilterIdempotent<T>(p: T -> bool, xs: seq<T>)
    ensures Filter(p, Filter(p, xs)) == Filter(p, xs)
  {
    FilterKeepsAll(p, Filter(p, xs));
  }

  /** Filtering a concatenation filters each part and concatenates the results. */
  lemma {:induction false} FilterAppend<T>(p: T -> bool, a: seq<T>, b: seq<T>)
    ensures Filter(p, a + b) == Filter(p, a) + Filter(p, b)
  {
    if a == [] {
      assert a + b == b;
    } else {
      assert (a + b)[0] == a[0];
      assert (a + b)[1..] == a[1..] + b;
      FilterAppend(p, a[1..], b);
    }
  }

  /** `xs.findIndex(p)`: the first position whose element satisfies `p`, or -1. */
  function FindIndex<T>(p: T -> bool, xs: seq<T>): (k: int)
    ensures -1 <= k < |xs|
    ensures k == -1 <==> forall i :: 0 <= i < |xs| ==> !p(xs[i])
    ensures 0 <= k ==> p(xs[k]) && forall j :: 0 <= j < k ==> !p(xs[j])
  {
    if xs == [] then -1
    else if p(xs[0]) then 0
    else
      var k := FindIndex(p, xs[1..]);
      if k == -1 then -1 else k + 1
  }

  /** `xs.find(p)`: the first element that satisfies `p`, or `undefined`. */
  function Find<T>(p: T -> bool, xs: seq<T>): (r: Option<T>)
    ensures r.None? <==> forall i :: 0 <= i < |xs| ==> !p(xs[i])
    ensures r.Some? ==>
      exists k :: 0 <= k < |xs| && xs[k] == r.value && p(xs[k]) && forall j :: 0 <= j < k ==> !p(xs[j])
  {
    var k := FindIndex(p, xs);
    if k == -1 then None else Some(xs[k])
  }

  /** The number of `true` entries. */
  function CountTrue(bs: seq<bool>): nat {
    if bs == [] then 0 else CountTrue(bs[..|bs| - 1]) + (if bs[|bs| - 1] then 1 else 0)
  }
}
