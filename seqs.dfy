/**
 * Sequence operations shared by the server's listings and the client's views:
 * `Array.prototype.filter`, de-duplication through a `Set`, and sorting (the
 * document store's `sort`).
 */
module Seqs {

  /** `r` is `s` with some elements left out, in the same order. */
  ghost predicate IsSubsequence<T>(r: seq<T>, s: seq<T>)
  {
    if r == [] then true
    else if s == [] then false
    else if r[0] == s[0] then IsSubsequence(r[1..], s[1..])
    else IsSubsequence(r, s[1..])
  }

  /** `s.filter(p)`: exactly the elements satisfying `p`, in their original order. */
  function Filter<T(!new)>(s: seq<T>, p: T -> bool): (r: seq<T>)
    ensures forall x :: x in r <==> x in s && p(x)
    ensures forall i :: 0 <= i < |r| ==> p(r[i])
    ensures IsSubsequence(r, s)
  {
    if s == [] then []
    else if p(s[0]) then [s[0]] + Filter(s[1..], p)
    else
      var r := Filter(s[1..], p);
      assert r != [] ==> r[0] != s[0] by {
        if r != [] { assert r[0] in r; }
      }
      r
  }

  /** A filter keeps every occurrence of an element that passes and none of one that fails. */
  lemma {:induction false} FilterMultiset<T(!new)>(s: seq<T>, p: T -> bool, x: T)
    ensures multiset(Filter(s, p))[x] == if p(x) then multiset(s)[x] else 0
  {
    if s != [] {
      assert s == [s[0]] + s[1..];
      FilterMultiset(s[1..], p, x);
    }
  }

  /** Filtering with a predicate that every element satisfies changes nothing. */
  lemma {:induction false} FilterAll<T(!new)>(s: seq<T>, p: T -> bool)
    requires forall i :: 0 <= i < |s| ==> p(s[i])
    ensures Filter(s, p) == s
  {
    if s != [] {
      FilterAll(s[1..], p);
      assert [s[0]] + s[1..] == s;
    }
  }

  /** Filtering keeps whatever order the sequence was in. */
  lemma {:induction false} FilterSorted<T(!new)>(s: seq<T>, p: T -> bool, before: (T, T) -> bool)
    requires SortedBy(s, before)
    ensures SortedBy(Filter(s, p), before)
  {
    if s != [] {
      FilterSorted(s[1..], p, before);
      var rest := Filter(s[1..], p);
      if p(s[0]) {
        var r := [s[0]] + rest;
        forall i, j | 0 <= i < j < |r| ensures before(r[i], r[j]) {
          if i == 0 {
            assert r[j] in rest;
            var k :| 0 <= k < |s[1..]| && s[1..][k] == r[j];
            assert s[k + 1] == r[j];
          }
        }
      }
    }
  }

  /** No element occurs twice. */
  ghost predicate NoDuplicates<T>(s: seq<T>)
  {
    forall i, j :: 0 <= i < j < |s| ==> s[i] != s[j]
  }

  /** Without duplicates, an element occurs at most once. */
  lemma {:induction false} NoDuplicatesAtMostOnce<T>(s: seq<T>, x: T)
    requires NoDuplicates(s)
    ensures multiset(s)[x] <= 1
  {
    if s != [] {
      assert s == [s[0]] + s[1..];
      assert NoDuplicates(s[1..]) by {
        forall i, j | 0 <= i < j < |s[1..]| ensures s[1..][i] != s[1..][j] {
          assert s[1..][i] == s[i + 1] && s[1..][j] == s[j + 1];
        }
      }
      NoDuplicatesAtMostOnce(s[1..], x);
      if x == s[0] {
        assert x !in s[1..] by {
          forall k | 0 <= k < |s[1..]| ensures s[1..][k] != x {
            assert s[1..][k] == s[k + 1];
          }
        }
      }
    }
  }

  /** A rearrangement of a sequence without duplicates has none either. */
  lemma PermutationKeepsNoDuplicates<T>(s: seq<T>, r: seq<T>)
    requires NoDuplicates(s)
    requires multiset(r) == multiset(s)
    ensures NoDuplicates(r)
  {
    forall i, j | 0 <= i < j < |r| ensures r[i] != r[j] {
      if r[i] == r[j] {
        assert r == r[..j] + r[j..];
        assert r[i] in r[..j] && r[j] in r[j..];
        assert multiset(r)[r[i]] >= 2 by {
          assert multiset(r) == multiset(r[..j]) + multiset(r[j..]);
        }
        NoDuplicatesAtMostOnce(s, r[i]);
        assert false;
      }
    }
  }

  /** The elements of `s` not in `seen`, each once, in the order of their first occurrence. */
  function DistinctFrom<T(!new,==)>(s: seq<T>, seen: set<T>): (r: seq<T>)
    ensures forall x :: x in r <==> x in s && x !in seen
    ensures NoDuplicates(r)
    ensures IsSubsequence(r, s)
  {
    if s == [] then []
    else if s[0] in seen then
      var r := DistinctFrom(s[1..], seen);
      assert r != [] ==> r[0] != s[0] by {
        if r != [] { assert r[0] in r; }
      }
      r
    else
      var rest := DistinctFrom(s[1..], seen + {s[0]});
      assert s[0] !in rest;
      [s[0]] + rest
  }

  /** `[...new Set(s)]`: the distinct elements of `s` in the order they first occur. */
  function Distinct<T(!new,==)>(s: seq<T>): (r: seq<T>)
    ensures forall x :: x in r <==> x in s
    ensures NoDuplicates(r)
    ensures IsSubsequence(r, s)
  {
    DistinctFrom(s, {})
  }

  /** `s.map(f)`. */
  function Map<T, U>(s: seq<T>, f: T -> U): (r: seq<U>)
    ensures |r| == |s|
    ensures forall i :: 0 <= i < |s| ==> r[i] == f(s[i])
  {
    if s == [] then [] else [f(s[0])] + Map(s[1..], f)
  }

  /** `before` orders any two elements one way or the other, transitively: a comparison a
      sort can use, ties allowed. */
  ghost predicate TotalPreorder<T(!new)>(before: (T, T) -> bool)
  {
    && (forall a, b :: before(a, b) || before(b, a))
    && (forall a, b, c :: before(a, b) && before(b, c) ==> before(a, c))
  }

  /** Every element comes `before` every later one. */
  ghost predicate SortedBy<T>(s: seq<T>, before: (T, T) -> bool)
  {
    forall i, j :: 0 <= i < j < |s| ==> before(s[i], s[j])
  }

  /** The head of a sorted sequence comes before everything in the rest of it with an
      element it comes before inserted. */
  lemma HeadBeforeInserted<T(!new)>(s: seq<T>, x: T, rest: seq<T>, before: (T, T) -> bool)
    requires SortedBy(s, before) && s != []
    requires before(s[0], x)
    requires multiset(rest) == multiset(s[1..]) + multiset{x}
    ensures forall y :: y in rest ==> before(s[0], y)
  {
    forall y | y in rest ensures before(s[0], y) {
      assert y in multiset(rest);
      if y != x {
        assert y in multiset(s[1..]);
        var k :| 0 <= k < |s[1..]| && s[1..][k] == y;
        assert s[k + 1] == y;
      }
    }
  }

  /** What comes before the head of a sorted sequence comes before all of it. */
  lemma BeforeHeadBeforeAll<T(!new)>(x: T, s: seq<T>, before: (T, T) -> bool)
    requires TotalPreorder(before)
    requires SortedBy(s, before)
    requires s == [] || before(x, s[0])
    ensures forall y :: y in s ==> before(x, y)
  {
    forall y | y in s ensures before(x, y) {
      var k :| 0 <= k < |s| && s[k] == y;
      if k > 0 { assert before(s[0], s[k]); }
    }
  }

  /** A sorted sequence stays sorted behind an element that comes before all of it. */
  lemma ConsSorted<T>(h: T, s: seq<T>, before: (T, T) -> bool)
    requires SortedBy(s, before)
    requires forall y :: y in s ==> before(h, y)
    ensures SortedBy([h] + s, before)
  {
    var r := [h] + s;
    forall i, j | 0 <= i < j < |r| ensures before(r[i], r[j]) {
      if i == 0 {
        assert r[j] in s;
      } else {
        assert r[i] == s[i - 1] && r[j] == s[j - 1];
      }
    }
  }

  /** Inserts `x` in front of the first element it comes `before`, keeping `s` sorted. */
  function Insert<T(!new)>(x: T, s: seq<T>, before: (T, T) -> bool): (r: seq<T>)
    requires TotalPreorder(before)
    requires SortedBy(s, before)
    ensures multiset(r) == multiset(s) + multiset{x}
    ensures SortedBy(r, before)
  {
    if s == [] || before(x, s[0]) then
      BeforeHeadBeforeAll(x, s, before);
      ConsSorted(x, s, before);
      [x] + s
    else
      var rest := Insert(x, s[1..], before);
      assert before(s[0], x);
      HeadBeforeInserted(s, x, rest, before);
      ConsSorted(s[0], rest, before);
      assert s == [s[0]] + s[1..];
      [s[0]] + rest
  }


  /** Insertion sort: a permutation of `s` sorted by `before`. */
  function Sort<T(!new)>(s: seq<T>, before: (T, T) -> bool): (r: seq<T>)
    requires TotalPreorder(before)
    ensures multiset(r) == multiset(s)
    ensures SortedBy(r, before)
  {
    if s == [] then []
    else
      assert s == [s[0]] + s[1..];
      Insert(s[0], Sort(s[1..], before), before)
  }
}
