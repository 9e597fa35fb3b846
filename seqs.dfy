/** Order-preserving selection between sequences. */
module Seqs {

  /** `a` can be obtained from `b` by deleting elements, keeping the order of the rest. */
  predicate Subseq<T(==)>(a: seq<T>, b: seq<T>)
    decreases |b|
  {
    a == [] || (b != [] && ((a[0] == b[0] && Subseq(a[1..], b[1..])) || Subseq(a, b[1..])))
  }

  /** Every element of a subsequence is an element of the whole. */
  lemma {:induction false} SubseqMembers<T>(a: seq<T>, b: seq<T>)
    requires Subseq(a, b)
    ensures forall x :: x in a ==> x in b
    decreases |b|
  {
    if a != [] {
      if a[0] == b[0] && Subseq(a[1..], b[1..]) {
        SubseqMembers(a[1..], b[1..]);
        assert forall x :: x in a ==> x == a[0] || x in a[1..];
      } else {
        SubseqMembers(a, b[1..]);
      }
    }
  }

  /** `s` with every element appended to `b` as well: the subsequence relation survives
      appending the same element to both sides. */
  lemma {:induction false} SubseqSnoc<T>(a: seq<T>, b: seq<T>, x: T)
    requires Subseq(a, b)
    ensures Subseq(a + [x], b + [x])
    decreases |b|
  {
    if a == [] {
      assert a + [x] == [x];
      SubseqOfAny([x], b + [x]);
    } else if a[0] == b[0] && Subseq(a[1..], b[1..]) {
      SubseqSnoc(a[1..], b[1..], x);
      assert (a + [x])[1..] == a[1..] + [x];
      assert (b + [x])[1..] == b[1..] + [x];
    } else {
      SubseqSnoc(a, b[1..], x);
      assert (b + [x])[1..] == b[1..] + [x];
    }
  }

  /** A subsequence stays one when the whole grows at the end. */
  lemma {:induction false} SubseqExtend<T>(a: seq<T>, b: seq<T>, x: T)
    requires Subseq(a, b)
    ensures Subseq(a, b + [x])
    decreases |b|
  {
    if a != [] {
      if a[0] == b[0] && Subseq(a[1..], b[1..]) {
        SubseqExtend(a[1..], b[1..], x);
        assert (b + [x])[1..] == b[1..] + [x];
      } else {
        SubseqExtend(a, b[1..], x);
        assert (b + [x])[1..] == b[1..] + [x];
      }
    }
  }

  /** A single element is a subsequence of any sequence ending in it. */
  lemma {:induction false} SubseqOfAny<T>(a: seq<T>, b: seq<T>)
    requires |a| == 1 && |b| >= 1 && b[|b| - 1] == a[0]
    ensures Subseq(a, b)
    decreases |b|
  {
    if a[0] != b[0] || |b| > 1 {
      if |b| > 1 {
        SubseqOfAny(a, b[1..]);
      }
    }
  }

  /** The elements of `s` that satisfy `p`, in their order. */
  function Filter<T(!new)>(s: seq<T>, p: T -> bool): (r: seq<T>)
    ensures |r| <= |s|
    ensures forall x :: x in r <==> x in s && p(x)
  {
    if s == [] then []
    else (if p(s[0]) then [s[0]] else []) + Filter(s[1..], p)
  }

  /** Filter keeps the order of what it keeps. */
  lemma {:induction false} FilterSubseq<T(!new)>(s: seq<T>, p: T -> bool)
    ensures Subseq(Filter(s, p), s)
  {
    if s != [] {
      FilterSubseq(s[1..], p);
      var r := Filter(s, p);
      if p(s[0]) {
        assert r[0] == s[0];
        assert r[1..] == Filter(s[1..], p);
      } else {
        assert r == Filter(s[1..], p);
        SubseqDropHead(r, s);
      }
    }
  }

  /** Filter keeps every element that satisfies `p` as often as it occurs, and drops
      all others. */
  lemma {:induction false} FilterCounts<T(!new)>(s: seq<T>, p: T -> bool)
    ensures forall x :: multiset(Filter(s, p))[x] == if p(x) then multiset(s)[x] else 0
  {
    if s != [] {
      FilterCounts(s[1..], p);
      assert s == [s[0]] + s[1..];
      assert multiset(s) == multiset{s[0]} + multiset(s[1..]);
      assert multiset(Filter(s, p))
          == (if p(s[0]) then multiset{s[0]} else multiset{}) + multiset(Filter(s[1..], p));
    }
  }

  /** When the elements satisfying `p` are exactly the first `k`, Filter keeps that prefix. */
  lemma {:induction false} FilterPrefix<T(!new)>(s: seq<T>, p: T -> bool, k: nat)
    requires PrefixSplit(s, p, k)
    ensures Filter(s, p) == s[..k]
  {
    if k == 0 {
      FilterNone(s, p);
    } else {
      PrefixSplitTail(s, p, k);
      FilterPrefix(s[1..], p, k - 1);
      assert s[..k] == [s[0]] + s[1..][..k - 1];
    }
  }

  /** The first `k` elements of `s` satisfy `p` and the others do not. */
  predicate PrefixSplit<T>(s: seq<T>, p: T -> bool, k: nat) {
    && k <= |s|
    && (forall i :: 0 <= i < k ==> p(s[i]))
    && (forall i :: k <= i < |s| ==> !p(s[i]))
  }

  lemma PrefixSplitTail<T>(s: seq<T>, p: T -> bool, k: nat)
    requires PrefixSplit(s, p, k) && k > 0
    ensures p(s[0]) && PrefixSplit(s[1..], p, k - 1)
  {
    var tail := s[1..];
    forall i | 0 <= i < k - 1 ensures p(tail[i]) {
      assert tail[i] == s[i + 1];
    }
    forall i | k - 1 <= i < |tail| ensures !p(tail[i]) {
      assert tail[i] == s[i + 1];
    }
  }

  /** Prefixing both sides with the same element keeps a subsequence one. */
  lemma SubseqCons<T>(x: T, a: seq<T>, b: seq<T>)
    requires Subseq(a, b)
    ensures Subseq([x] + a, [x] + b)
  {
    assert ([x] + a)[1..] == a;
    assert ([x] + b)[1..] == b;
  }

  /** Skipping the head of the whole keeps a subsequence of its tail one of the whole. */
  lemma SubseqDropHead<T>(a: seq<T>, b: seq<T>)
    requires b != [] && Subseq(a, b[1..])
    ensures Subseq(a, b)
  {
  }

  /** If no element satisfies `p`, nothing is kept. */
  lemma FilterNone<T(!new)>(s: seq<T>, p: T -> bool)
    requires forall i :: 0 <= i < |s| ==> !p(s[i])
    ensures Filter(s, p) == []
  {
  }
}
