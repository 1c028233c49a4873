/**
 * Sequence combinators the screens use through JavaScript's Array methods:
 * `filter`, `slice(0, n)`, `reduce` with `+`, and `sort` with a numeric
 * comparator.
 */
module Seqs {

  /** Array.prototype.filter: the elements satisfying `p`, in their original order. */
  function Filter<T>(s: seq<T>, p: T -> bool): (r: seq<T>)
    ensures |r| <= |s|
    ensures forall i :: 0 <= i < |r| ==> p(r[i])
    ensures forall i :: 0 <= i < |s| && p(s[i]) ==> s[i] in r
  {
    if s == [] then []
    else if p(s[0]) then [s[0]] + Filter(s[1..], p)
    else Filter(s[1..], p)
  }

  /** `sub` is obtained from `s` by deleting elements, without reordering. */
  predicate IsSubsequence<T(==)>(sub: seq<T>, s: seq<T>)
  {
    if sub == [] then true
    else if s == [] then false
    else if sub[0] == s[0] then IsSubsequence(sub[1..], s[1..])
    else IsSubsequence(sub, s[1..])
  }

  lemma {:induction false} FilterIsSubsequence<T>(s: seq<T>, p: T -> bool)
    ensures IsSubsequence(Filter(s, p), s)
  {
    if s != [] {
      FilterIsSubsequence(s[1..], p);
    }
  }

  /** Every element kept comes from the input. */
  lemma {:induction false} FilterFrom<T>(s: seq<T>, p: T -> bool)
    ensures forall i :: 0 <= i < |Filter(s, p)| ==> Filter(s, p)[i] in s
  {
    if s != [] {
      FilterFrom(s[1..], p);
    }
  }

  /** Filtering with the constant-true predicate keeps everything. */
  lemma {:induction false} FilterAll<T>(s: seq<T>, p: T -> bool)
    requires forall i :: 0 <= i < |s| ==> p(s[i])
    ensures Filter(s, p) == s
  {
    if s != [] {
      FilterAll(s[1..], p);
    }
  }

  /** Filtering with a predicate that no element satisfies keeps nothing. */
  lemma {:induction false} FilterNone<T>(s: seq<T>, p: T -> bool)
    requires forall i :: 0 <= i < |s| ==> !p(s[i])
    ensures Filter(s, p) == []
  {
    if s != [] {
      FilterNone(s[1..], p);
    }
  }

  /** Filtering by `p` then by `q` is filtering by both. */
  lemma {:induction false} FilterFilter<T>(s: seq<T>, p: T -> bool, q: T -> bool)
    ensures Filter(Filter(s, p), q) == Filter(s, x => p(x) && q(x))
  {
    if s != [] {
      FilterFilter(s[1..], p, q);
    }
  }

  /** Number of elements satisfying `p`. */
  function Count<T>(s: seq<T>, p: T -> bool): (n: nat)
    ensures n <= |s|
  {
    if s == [] then 0 else (if p(s[0]) then 1 else 0) + Count(s[1..], p)
  }

  lemma {:induction false} CountAppend<T>(s: seq<T>, x: T, p: T -> bool)
    ensures Count(s + [x], p) == Count(s, p) + if p(x) then 1 else 0
  {
    if s == [] {
      assert s + [x] == [x];
    } else {
      assert (s + [x])[1..] == s[1..] + [x];
      CountAppend(s[1..], x, p);
    }
  }

  lemma {:induction false} CountIsFilterLength<T>(s: seq<T>, p: T -> bool)
    ensures Count(s, p) == |Filter(s, p)|
  {
    if s != [] {
      CountIsFilterLength(s[1..], p);
    }
  }

  /**
   * Three predicates that hold of no element twice split a sequence:
   * the sizes of the three filters add up to the length.
   */
  lemma {:induction false} PartitionSizes<T>(s: seq<T>, p: T -> bool, q: T -> bool, o: T -> bool)
    requires forall i :: 0 <= i < |s| ==> (if p(s[i]) then 1 else 0) + (if q(s[i]) then 1 else 0) + (if o(s[i]) then 1 else 0) == 1
    ensures |Filter(s, p)| + |Filter(s, q)| + |Filter(s, o)| == |s|
  {
    if s != [] {
      PartitionSizes(s[1..], p, q, o);
    }
  }

  /** Array.prototype.slice(0, n). */
  function Take<T>(s: seq<T>, n: nat): (r: seq<T>)
    ensures |r| == if |s| < n then |s| else n
    ensures forall i :: 0 <= i < |r| ==> r[i] == s[i]
  {
    if |s| <= n then s else s[..n]
  }

  /** A prefix is a sub-multiset, and a prefix of a sorted sequence is sorted. */
  lemma TakePrefix<T>(s: seq<T>, n: nat, key: T -> real)
    ensures multiset(Take(s, n)) <= multiset(s)
    ensures SortedDesc(s, key) ==> SortedDesc(Take(s, n), key)
  {
    var r := Take(s, n);
    assert s == r + s[|r|..];
  }

  /** An element of a sorted sequence that the prefix leaves out weighs no more than any kept one. */
  lemma TakeBeatsRest<T>(s: seq<T>, n: nat, key: T -> real, x: T)
    requires SortedDesc(s, key)
    requires x in multiset(s) - multiset(Take(s, n))
    ensures forall i :: 0 <= i < |Take(s, n)| ==> key(x) <= key(Take(s, n)[i])
  {
    var top := Take(s, n);
    var rest := s[|top|..];
    assert s == top + rest;
    assert multiset(s) == multiset(top) + multiset(rest);
    assert x in multiset(rest);
    var j :| 0 <= j < |rest| && rest[j] == x;
    assert s[|top| + j] == x;
  }

  /** Array.prototype.slice(k) for k >= 0: empty when k is past the end. */
  function Drop<T>(s: seq<T>, k: nat): (r: seq<T>)
    ensures |r| == if |s| <= k then 0 else |s| - k
    ensures forall i :: 0 <= i < |r| ==> r[i] == s[k + i]
  {
    if |s| <= k then [] else s[k..]
  }

  /** `reduce((sum, x) => sum + w(x), 0)`. */
  function SumOf<T>(s: seq<T>, w: T -> real): real
  {
    if s == [] then 0.0 else w(s[0]) + SumOf(s[1..], w)
  }

  lemma {:induction false} SumOfAppend<T>(s: seq<T>, x: T, w: T -> real)
    ensures SumOf(s + [x], w) == SumOf(s, w) + w(x)
  {
    if s == [] {
      assert s + [x] == [x];
    } else {
      assert (s + [x])[1..] == s[1..] + [x];
      SumOfAppend(s[1..], x, w);
    }
  }

  /** With no negative weight, the sum is at least 0 and at least each single weight. */
  lemma {:induction false} SumOfBounds<T>(s: seq<T>, w: T -> real)
    ensures (forall i :: 0 <= i < |s| ==> w(s[i]) >= 0.0) ==>
      SumOf(s, w) >= 0.0 && forall i :: 0 <= i < |s| ==> w(s[i]) <= SumOf(s, w)
  {
    if s != [] {
      SumOfBounds(s[1..], w);
      if forall i :: 0 <= i < |s| ==> w(s[i]) >= 0.0 {
        assert forall i :: 0 <= i < |s[1..]| ==> w(s[1..][i]) >= 0.0 by {
          forall i | 0 <= i < |s[1..]| ensures w(s[1..][i]) >= 0.0 {
            assert s[1..][i] == s[i + 1];
          }
        }
        forall i | 1 <= i < |s| ensures w(s[i]) <= SumOf(s, w) {
          assert s[1..][i - 1] == s[i];
        }
      }
    }
  }

  /** Non-increasing by `key`: what `sort((a, b) => key(b) - key(a))` produces. */
  predicate SortedDesc<T>(s: seq<T>, key: T -> real)
  {
    forall i, j :: 0 <= i < j < |s| ==> key(s[i]) >= key(s[j])
  }

  /**
   * Place `x` after every element whose key is at least key(x). Since the
   * elements already placed came earlier in the input, ties keep input order.
   */
  function InsertDesc<T>(x: T, s: seq<T>, key: T -> real): (r: seq<T>)
    requires SortedDesc(s, key)
    ensures SortedDesc(r, key)
    ensures multiset(r) == multiset(s) + multiset{x}
    ensures |r| == |s| + 1
    ensures s == [] ==> r == [x]
    ensures s != [] ==> r[0] == x || r[0] == s[0]
  {
    if s == [] then [x]
    else if key(x) > key(s[0]) then
      ConsSorted(x, s, key);
      [x] + s
    else
      var rest := InsertDesc(x, s[1..], key);
      assert s == [s[0]] + s[1..];
      ConsSorted(s[0], rest, key);
      [s[0]] + rest
  }

  /** An element no smaller than the head of a sorted sequence can go in front of it. */
  lemma ConsSorted<T>(y: T, s: seq<T>, key: T -> real)
    requires SortedDesc(s, key) && (s == [] || key(y) >= key(s[0]))
    ensures SortedDesc([y] + s, key)
  {
    var r := [y] + s;
    forall i, j | 0 <= i < j < |r| ensures key(r[i]) >= key(r[j]) {
      assert r[j] == s[j - 1];
      if i > 0 {
        assert r[i] == s[i - 1];
      }
    }
  }

  /** A sort by `key`, largest first (insertion sort from the back). */
  function SortDesc<T>(s: seq<T>, key: T -> real): (r: seq<T>)
    ensures SortedDesc(r, key)
    ensures multiset(r) == multiset(s)
    ensures |r| == |s|
  {
    if s == [] then []
    else
      var r := InsertDesc(s[|s| - 1], SortDesc(s[..|s| - 1], key), key);
      assert s == s[..|s| - 1] + [s[|s| - 1]];
      r
  }
}
