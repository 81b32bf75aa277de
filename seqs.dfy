/** Sequence helpers shared by the model: JavaScript's `Array.prototype.filter`
    and the order-preserving subsequence relation it establishes. */
module Seqs {
  import opened Wrappers

  /** `r` can be obtained from `s` by deleting elements, keeping the order. */
  ghost predicate IsSubsequence<T>(r: seq<T>, s: seq<T>)
    decreases |s|
  {
    if r == [] then true
    else if s == [] then false
    else (r[0] == s[0] && IsSubsequence(r[1..], s[1..])) || IsSubsequence(r, s[1..])
  }

  /** `Array.prototype.filter`: the elements of `s` that satisfy `p`, in order. */
  function Filter<T>(s: seq<T>, p: T -> bool): (r: seq<T>)
    ensures |r| <= |s|
    ensures forall i :: 0 <= i < |r| ==> r[i] in s && p(r[i])
    ensures forall i :: 0 <= i < |s| && p(s[i]) ==> s[i] in r
    ensures IsSubsequence(r, s)
  {
    if s == [] then []
    else if p(s[0]) then
      var rest := Filter(s[1..], p);
      assert ([s[0]] + rest)[1..] == rest;
      [s[0]] + rest
    else Filter(s[1..], p)
  }

  /** `s.filter(p).length`. */
  function Count<T>(s: seq<T>, p: T -> bool): nat
  {
    |Filter(s, p)|
  }

  /** Filtering with a predicate that every element satisfies changes nothing. */
  lemma {:induction false} FilterAll<T>(s: seq<T>, p: T -> bool)
    requires forall i :: 0 <= i < |s| ==> p(s[i])
    ensures Filter(s, p) == s
  {
    if s != [] {
      FilterAll(s[1..], p);
    }
  }

  /** Filtering distributes over concatenation. */
  lemma {:induction false} FilterAppend<T>(a: seq<T>, b: seq<T>, p: T -> bool)
    ensures Filter(a + b, p) == Filter(a, p) + Filter(b, p)
  {
    if a == [] {
      assert a + b == b;
    } else {
      assert (a + b)[1..] == a[1..] + b;
      FilterAppend(a[1..], b, p);
    }
  }

  /** Elements of a subsequence keep their relative order: any two positions
      of `r` come from increasing positions of `s`. */
  lemma {:induction false} SubsequenceOrder<T>(r: seq<T>, s: seq<T>, i: nat, j: nat)
    requires IsSubsequence(r, s)
    requires i < j < |r|
    ensures exists i', j' :: 0 <= i' < j' < |s| && s[i'] == r[i] && s[j'] == r[j]
    decreases |s|
  {
    if r[0] == s[0] && IsSubsequence(r[1..], s[1..]) {
      if i == 0 {
        assert r[j] == r[1..][j - 1];
        SubsequenceMember(r[1..], s[1..], j - 1);
        var k :| 0 <= k < |s[1..]| && s[1..][k] == r[j];
        assert s[0] == r[0] && s[k + 1] == r[j];
      } else {
        SubsequenceOrder(r[1..], s[1..], i - 1, j - 1);
        var i', j' :| 0 <= i' < j' < |s[1..]| && s[1..][i'] == r[1..][i - 1] && s[1..][j'] == r[1..][j - 1];
        assert s[i' + 1] == r[i] && s[j' + 1] == r[j];
      }
    } else {
      SubsequenceOrder(r, s[1..], i, j);
      var i', j' :| 0 <= i' < j' < |s[1..]| && s[1..][i'] == r[i] && s[1..][j'] == r[j];
      assert s[i' + 1] == r[i] && s[j' + 1] == r[j];
    }
  }

  /** Every element of a subsequence occurs in the sequence. */
  lemma {:induction false} SubsequenceMember<T>(r: seq<T>, s: seq<T>, i: nat)
    requires IsSubsequence(r, s)
    requires i < |r|
    ensures exists k :: 0 <= k < |s| && s[k] == r[i]
    decreases |s|
  {
    if r[0] == s[0] && IsSubsequence(r[1..], s[1..]) {
      if i == 0 {
        assert s[0] == r[0];
      } else {
        SubsequenceMember(r[1..], s[1..], i - 1);
        var k :| 0 <= k < |s[1..]| && s[1..][k] == r[1..][i - 1];
        assert s[k + 1] == r[i];
      }
    } else {
      SubsequenceMember(r, s[1..], i);
      var k :| 0 <= k < |s[1..]| && s[1..][k] == r[i];
      assert s[k + 1] == r[i];
    }
  }

  /** No two elements of `s` share a key. */
  predicate DistinctBy<T, K(==)>(s: seq<T>, key: T -> K)
  {
    forall i, j :: 0 <= i < j < |s| ==> key(s[i]) != key(s[j])
  }

  /** Filtering never introduces two elements with the same key. */
  lemma {:induction false} FilterKeepsDistinct<T, K>(s: seq<T>, p: T -> bool, key: T -> K)
    requires DistinctBy(s, key)
    ensures DistinctBy(Filter(s, p), key)
  {
    if s != [] {
      var tail := s[1..];
      assert DistinctBy(tail, key);
      FilterKeepsDistinct(tail, p, key);
      if p(s[0]) {
        var r := Filter(s, p);
        var rest := Filter(tail, p);
        assert r == [s[0]] + rest;
        forall j | 0 < j < |r|
          ensures key(r[0]) != key(r[j])
        {
          assert r[j] == rest[j - 1];
          var k :| 0 <= k < |tail| && tail[k] == rest[j - 1];
          assert s[k + 1] == r[j];
        }
      }
    }
  }

  /** Filtering with two predicates that agree on every element gives the
      same result. */
  lemma {:induction false} FilterExt<T>(s: seq<T>, p: T -> bool, q: T -> bool)
    requires forall i :: 0 <= i < |s| ==> p(s[i]) == q(s[i])
    ensures Filter(s, p) == Filter(s, q)
  {
    if s != [] {
      FilterExt(s[1..], p, q);
    }
  }

  /** `Array.prototype.findIndex`, with `None` for -1: the first position
      whose element satisfies `p`. */
  function FindFirst<T>(s: seq<T>, p: T -> bool): (r: Option<nat>)
    ensures r.None? <==> forall i :: 0 <= i < |s| ==> !p(s[i])
    ensures r.Some? ==> r.value < |s| && p(s[r.value]) && forall j :: 0 <= j < r.value ==> !p(s[j])
  {
    if s == [] then None
    else if p(s[0]) then Some(0)
    else
      match FindFirst(s[1..], p)
      case None => None
      case Some(i) => Some(i + 1)
  }
}
