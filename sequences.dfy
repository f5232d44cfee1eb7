/**
 * Sequence operations shared by the resolver operators and the context library:
 * order-preserving filtering (a Python list comprehension with an `if`) and
 * Python's slice and index semantics for step-1 slices.
 */
module Sequences {
  import opened Wrappers

  /** `r` occurs in `s` in the same relative order (greedy matching decides it). */
  predicate IsSubsequence<T(==)>(r: seq<T>, s: seq<T>)
    decreases |s|
  {
    if r == [] then true
    else if s == [] then false
    else if r[0] == s[0] then IsSubsequence(r[1..], s[1..])
    else IsSubsequence(r, s[1..])
  }

  /** `[x for x in s if keep(x)]`. */
  function Filter<T(==)>(s: seq<T>, keep: T -> bool): (r: seq<T>)
    ensures |r| <= |s|
    ensures forall x :: x in r ==> keep(x)
    decreases |s|
  {
    if s == [] then []
    else
      var rest := Filter(s[1..], keep);
      if keep(s[0]) then [s[0]] + rest else rest
  }

  /** Filter keeps the kept elements in their input order. */
  lemma {:induction false} FilterIsSubsequence<T>(s: seq<T>, keep: T -> bool)
    ensures IsSubsequence(Filter(s, keep), s)
    decreases |s|
  {
    if s != [] {
      FilterIsSubsequence(s[1..], keep);
      var rest := Filter(s[1..], keep);
      if keep(s[0]) {
        assert ([s[0]] + rest)[1..] == rest;
      } else {
        assert rest != [] ==> rest[0] in rest;
      }
    }
  }

  /**
   * Filter keeps every occurrence of a kept value and none of a dropped one:
   * with IsSubsequence this fixes the result exactly.
   */
  lemma {:induction false} FilterMultiset<T>(s: seq<T>, keep: T -> bool)
    ensures multiset(Filter(s, keep)) <= multiset(s)
    ensures forall x :: x in s ==> multiset(Filter(s, keep))[x] == if keep(x) then multiset(s)[x] else 0
    ensures forall x :: x in s && keep(x) ==> x in Filter(s, keep)
    decreases |s|
  {
    if s != [] {
      FilterMultiset(s[1..], keep);
      assert s == [s[0]] + s[1..];
      assert multiset(s) == multiset([s[0]]) + multiset(s[1..]);
      var rest := Filter(s[1..], keep);
      if keep(s[0]) {
        assert Filter(s, keep) == [s[0]] + rest;
        assert multiset(Filter(s, keep)) == multiset([s[0]]) + multiset(rest);
      } else {
        assert Filter(s, keep) == rest;
      }
      forall x | x in s && keep(x) ensures x in Filter(s, keep) {
        assert multiset(s)[x] > 0;
      }
    }
  }

  /** A test every element passes keeps the whole sequence. */
  lemma {:induction false} FilterKeepsAll<T>(s: seq<T>, keep: T -> bool)
    requires forall x :: x in s ==> keep(x)
    ensures Filter(s, keep) == s
    decreases |s|
  {
    if s != [] {
      assert s[0] in s;
      forall x | x in s[1..] ensures keep(x) { assert x in s; }
      FilterKeepsAll(s[1..], keep);
    }
  }

  /** A test no element passes keeps nothing. */
  lemma FilterKeepsNone<T>(s: seq<T>, keep: T -> bool)
    requires forall x :: x in s ==> !keep(x)
    ensures Filter(s, keep) == []
  {
    FilterMultiset(s, keep);
    assert multiset(Filter(s, keep)) == multiset{};
  }

  /** Filtering distributes over concatenation. */
  lemma {:induction false} FilterConcat<T>(a: seq<T>, b: seq<T>, keep: T -> bool)
    ensures Filter(a + b, keep) == Filter(a, keep) + Filter(b, keep)
    decreases |a|
  {
    if a == [] {
      assert a + b == b;
    } else {
      assert (a + b)[0] == a[0];
      assert (a + b)[1..] == a[1..] + b;
      FilterConcat(a[1..], b, keep);
    }
  }

  /** Filtering a prefix one element longer adds at most that element. */
  lemma FilterSnoc<T>(s: seq<T>, i: nat, keep: T -> bool)
    requires i < |s|
    ensures Filter(s[..i + 1], keep) == Filter(s[..i], keep) + (if keep(s[i]) then [s[i]] else [])
  {
    assert s[..i + 1] == s[..i] + [s[i]];
    FilterConcat(s[..i], [s[i]], keep);
    assert [s[i]][1..] == [];
  }

  /** Filters under two tests that agree on every element of `s` are equal. */
  lemma {:induction false} FilterCongruent<T>(s: seq<T>, keep1: T -> bool, keep2: T -> bool)
    requires forall x :: x in s ==> keep1(x) == keep2(x)
    ensures Filter(s, keep1) == Filter(s, keep2)
    decreases |s|
  {
    if s != [] {
      assert s[0] in s;
      forall x | x in s[1..] ensures keep1(x) == keep2(x) {
        assert x in s;
      }
      FilterCongruent(s[1..], keep1, keep2);
    }
  }

  /** Python's normalisation of a slice bound: negative counts from the end, then clamp to [0, len]. */
  function SliceBound(i: int, len: nat): (b: nat)
    ensures b <= len
    ensures 0 <= i <= len ==> b == i
    ensures i < 0 && 0 <= i + len ==> b == i + len
    ensures i + len < 0 ==> b == 0
    ensures len < i ==> b == len
  {
    if i < 0 then (if i + len < 0 then 0 else i + len)
    else if i > len then len
    else i
  }

  /** Python's `s[start:stop]` (step 1); `None` is an omitted bound. */
  function PySlice<T>(s: seq<T>, start: Option<int>, stop: Option<int>): seq<T>
  {
    var lo := if start.None? then 0 else SliceBound(start.value, |s|);
    var hi := if stop.None? then |s| else SliceBound(stop.value, |s|);
    if lo < hi then s[lo..hi] else []
  }

  /** Python's `s[i]` for an index Python accepts (negative counts from the end). */
  function PyIndex<T>(s: seq<T>, i: int): T
    requires -|s| <= i < |s|
  {
    if i < 0 then s[|s| + i] else s[i]
  }

  function Min(a: int, b: int): int { if a <= b then a else b }

  /** `s[:n]` is the first min(n, |s|) elements, for n >= 0. */
  lemma PrefixSlice<T>(s: seq<T>, n: int)
    requires n >= 0
    ensures PySlice(s, None, Some(n)) == s[..Min(n, |s|)]
  {
  }

  /** `s[-n:]` is the last min(n, |s|) elements, for n >= 1. */
  lemma SuffixSlice<T>(s: seq<T>, n: int)
    requires n >= 1
    ensures PySlice(s, Some(-n), None) == s[|s| - Min(n, |s|)..]
  {
  }

  /** `s[-0:]` is the whole of `s`, not its empty suffix: why a count of 0 needs its own guard. */
  lemma NegativeZeroSliceIsWhole<T>(s: seq<T>)
    ensures PySlice(s, Some(-0), None) == s
  {
  }
}
