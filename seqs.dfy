/** Order-preserving sub-lists, the shape of every `Array.prototype.filter` result. */
module Seqs {

  /** `a` is obtained from `b` by deleting elements, keeping the order of the rest. */
  predicate IsSubsequence<T(==)>(a: seq<T>, b: seq<T>)
    decreases |b|
  {
    if b == [] then a == []
    else (a != [] && a[0] == b[0] && IsSubsequence(a[1..], b[1..])) || IsSubsequence(a, b[1..])
  }

  /** A sub-list is never longer than the list. */
  lemma {:induction false} SubsequenceLength<T>(a: seq<T>, b: seq<T>)
    requires IsSubsequence(a, b)
    ensures |a| <= |b|
    decreases |b|
  {
    if b != [] {
      if a != [] && a[0] == b[0] && IsSubsequence(a[1..], b[1..]) {
        SubsequenceLength(a[1..], b[1..]);
      } else {
        SubsequenceLength(a, b[1..]);
      }
    }
  }

  /** Every element of a sub-list is an element of the list. */
  lemma {:induction false} SubsequenceElements<T>(a: seq<T>, b: seq<T>, x: T)
    requires IsSubsequence(a, b) && x in a
    ensures x in b
    decreases |b|
  {
    if b != [] {
      if a != [] && a[0] == b[0] && IsSubsequence(a[1..], b[1..]) {
        if x != a[0] {
          SubsequenceElements(a[1..], b[1..], x);
        }
      } else {
        SubsequenceElements(a, b[1..], x);
      }
    }
  }

  /** A sub-list of a suffix is a sub-list of the whole list. */
  lemma {:induction false} SubsequenceOfSuffix<T>(a: seq<T>, b: seq<T>, j: nat)
    requires j <= |b| && IsSubsequence(a, b[j..])
    ensures IsSubsequence(a, b)
    decreases j
  {
    if j > 0 {
      assert b[1..][j - 1..] == b[j..];
      SubsequenceOfSuffix(a, b[1..], j - 1);
    }
  }

  /** `s.filter(keep)`: the elements `keep` accepts, in their original order. */
  function Filter<T(==,!new)>(s: seq<T>, keep: T -> bool): (r: seq<T>)
    ensures IsSubsequence(r, s)
    ensures forall x :: x in r <==> x in s && keep(x)
    ensures |r| <= |s|
    ensures forall x :: multiset(r)[x] == if keep(x) then multiset(s)[x] else 0
  {
    if s == [] then []
    else
      var rest := Filter(s[1..], keep);
      assert s == [s[0]] + s[1..];
      assert multiset(s) == multiset([s[0]]) + multiset(s[1..]);
      if keep(s[0]) then
        var r := [s[0]] + rest;
        assert r[1..] == rest;
        r
      else rest
  }

  /** Filters that agree on every element of `s` select the same sub-list. */
  lemma {:induction false} FilterAgreeing<T(!new)>(s: seq<T>, p: T -> bool, q: T -> bool)
    requires forall i :: 0 <= i < |s| ==> p(s[i]) == q(s[i])
    ensures Filter(s, p) == Filter(s, q)
  {
    if s != [] {
      FilterAgreeing(s[1..], p, q);
    }
  }

  /** A filter that accepts every element of `s` returns `s` itself. */
  lemma {:induction false} FilterKeepsAll<T(!new)>(s: seq<T>, keep: T -> bool)
    requires forall i :: 0 <= i < |s| ==> keep(s[i])
    ensures Filter(s, keep) == s
  {
    if s != [] {
      FilterKeepsAll(s[1..], keep);
      assert [s[0]] + s[1..] == s;
    }
  }
}
