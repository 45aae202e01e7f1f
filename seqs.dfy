/** `Array.prototype.filter`, `reverse` and the facts the views rely on. */
module Seqs {

  /** `s.filter(p)`: the elements that satisfy p. */
  function Filter<T>(s: seq<T>, p: T -> bool): (r: seq<T>)
    ensures |r| <= |s|
    ensures forall k :: 0 <= k < |r| ==> r[k] in s && p(r[k])
    ensures forall k :: 0 <= k < |s| && p(s[k]) ==> s[k] in r
  {
    if s == [] then []
    else if p(s[0]) then [s[0]] + Filter(s[1..], p)
    else Filter(s[1..], p)
  }

  /** a can be obtained from b by deleting elements (order kept). */
  ghost predicate IsSubseq<T>(a: seq<T>, b: seq<T>)
    decreases |b|
  {
    a == [] || (b != [] && ((a[0] == b[0] && IsSubseq(a[1..], b[1..])) || IsSubseq(a, b[1..])))
  }

  /** Every sequence is a subsequence of itself. */
  lemma {:induction false} SubseqRefl<T>(s: seq<T>)
    ensures IsSubseq(s, s)
  {
    if s != [] {
      SubseqRefl(s[1..]);
    }
  }

  /** A filter keeps the order of what it keeps. */
  lemma {:induction false} FilterIsSubseq<T>(s: seq<T>, p: T -> bool)
    ensures IsSubseq(Filter(s, p), s)
  {
    if s != [] {
      FilterIsSubseq(s[1..], p);
      if p(s[0]) {
        var r := Filter(s, p);
        assert r[0] == s[0] && r[1..] == Filter(s[1..], p);
      }
    }
  }

  /** The indices j >= i of s at which p(s[j]) holds, in increasing order. */
  function PositionsFrom<T>(s: seq<T>, p: T -> bool, i: nat): (r: seq<nat>)
    requires i <= |s|
    ensures forall k :: 0 <= k < |r| ==> i <= r[k] < |s| && p(s[r[k]])
    ensures forall j :: i <= j < |s| && p(s[j]) ==> j in r
    ensures forall a, b :: 0 <= a < b < |r| ==> r[a] < r[b]
    decreases |s| - i
  {
    if i == |s| then []
    else if p(s[i]) then [i] + PositionsFrom(s, p, i + 1)
    else PositionsFrom(s, p, i + 1)
  }

  /** The indices of s at which p holds, in increasing order: an independent account of the filter. */
  function Positions<T>(s: seq<T>, p: T -> bool): (r: seq<nat>)
    ensures forall k :: 0 <= k < |r| ==> r[k] < |s| && p(s[r[k]])
    ensures forall j :: 0 <= j < |s| && p(s[j]) ==> j in r
    ensures forall a, b :: 0 <= a < b < |r| ==> r[a] < r[b]
  {
    PositionsFrom(s, p, 0)
  }

  /** Filtering the suffix s[i..] picks exactly the elements at PositionsFrom(s, p, i). */
  lemma {:induction false} FilterFromAt<T>(s: seq<T>, p: T -> bool, i: nat)
    requires i <= |s|
    ensures |Filter(s[i..], p)| == |PositionsFrom(s, p, i)|
    ensures forall k :: 0 <= k < |Filter(s[i..], p)| ==> Filter(s[i..], p)[k] == s[PositionsFrom(s, p, i)[k]]
    decreases |s| - i
  {
    if i < |s| {
      var tail, pos := Filter(s[i + 1..], p), PositionsFrom(s, p, i + 1);
      FilterFromAt(s, p, i + 1);
      assert s[i..][0] == s[i] && s[i..][1..] == s[i + 1..];
      if p(s[i]) {
        assert Filter(s[i..], p) == [s[i]] + tail;
        assert PositionsFrom(s, p, i) == [i] + pos;
        forall k | 1 <= k < |tail| + 1
          ensures ([s[i]] + tail)[k] == s[([i] + pos)[k]]
        {
          assert ([s[i]] + tail)[k] == tail[k - 1] && ([i] + pos)[k] == pos[k - 1];
        }
      } else {
        assert Filter(s[i..], p) == tail;
        assert PositionsFrom(s, p, i) == pos;
      }
    }
  }

  /** The filter result is exactly the elements of s at its Positions, in that order. */
  lemma FilterAtPositions<T>(s: seq<T>, p: T -> bool)
    ensures |Filter(s, p)| == |Positions(s, p)|
    ensures forall k :: 0 <= k < |Filter(s, p)| ==> Filter(s, p)[k] == s[Positions(s, p)[k]]
  {
    FilterFromAt(s, p, 0);
    assert s[0..] == s;
  }

  /** Every element passes the test: the filter keeps everything. */
  lemma {:induction false} FilterAll<T>(s: seq<T>, p: T -> bool)
    requires forall k :: 0 <= k < |s| ==> p(s[k])
    ensures Filter(s, p) == s
  {
    if s != [] {
      FilterAll(s[1..], p);
    }
  }

  /** `s.slice().reverse()`. */
  function Reverse<T>(s: seq<T>): (r: seq<T>)
    ensures |r| == |s|
    ensures forall k :: 0 <= k < |s| ==> r[k] == s[|s| - 1 - k]
  {
    if s == [] then [] else Reverse(s[1..]) + [s[0]]
  }

  /** `xs.map(f)`. */
  function Map<A, B>(f: A -> B, xs: seq<A>): (r: seq<B>)
    ensures |r| == |xs|
    ensures forall k :: 0 <= k < |xs| ==> r[k] == f(xs[k])
  {
    seq(|xs|, k requires 0 <= k < |xs| => f(xs[k]))
  }
}
