/**
 * Sequence operations with the meaning of JavaScript's `Array.prototype.filter`,
 * `sort` and `slice`, and the relations used to state what they promise.
 */
module Seqs {
  import opened JsMath

  /** `a` is `b` with some elements left out, the rest in their order. */
  ghost predicate IsSubsequence<T>(a: seq<T>, b: seq<T>)
    decreases |b|
  {
    if a == [] then true
    else if b == [] then false
    else (a[0] == b[0] && IsSubsequence(a[1..], b[1..])) || IsSubsequence(a, b[1..])
  }

  lemma {:induction false} SubsequenceTransitive<T>(a: seq<T>, b: seq<T>, c: seq<T>)
    requires IsSubsequence(a, b) && IsSubsequence(b, c)
    ensures IsSubsequence(a, c)
    decreases |c|
  {
    if a != [] {
      if b[0] == c[0] && IsSubsequence(b[1..], c[1..]) {
        if a[0] == b[0] && IsSubsequence(a[1..], b[1..]) {
          SubsequenceTransitive(a[1..], b[1..], c[1..]);
        } else {
          SubsequenceTransitive(a, b[1..], c[1..]);
        }
      } else {
        SubsequenceTransitive(a, b, c[1..]);
      }
    }
  }

  /** `s.filter(keep)`: the elements satisfying `keep`, each as often as in `s`, in their order. */
  function Filter<T(!new)>(s: seq<T>, keep: T -> bool): (r: seq<T>)
    ensures |r| <= |s|
    ensures forall k :: 0 <= k < |r| ==> keep(r[k])
    ensures forall x :: multiset(r)[x] == if keep(x) then multiset(s)[x] else 0
    ensures IsSubsequence(r, s)
  {
    if s == [] then []
    else
      var rest := Filter(s[1..], keep);
      var head := if keep(s[0]) then [s[0]] else [];
      assert s == [s[0]] + s[1..];
      assert multiset(s) == multiset{s[0]} + multiset(s[1..]);
      assert IsSubsequence(head + rest, s) by {
        if keep(s[0]) {
          assert (head + rest)[0] == s[0] && (head + rest)[1..] == rest;
        } else {
          assert head + rest == rest;
          assert rest == [] || IsSubsequence(rest, s[1..]);
        }
      }
      head + rest
  }

  /** An element is kept by Filter exactly when it is in `s` and satisfies `keep`. */
  lemma FilterMembership<T(!new)>(s: seq<T>, keep: T -> bool)
    ensures forall x :: x in Filter(s, keep) <==> x in s && keep(x)
  {
    var r := Filter(s, keep);
    forall x ensures x in r <==> x in s && keep(x) {
      assert x in r <==> multiset(r)[x] > 0;
      assert x in s <==> multiset(s)[x] > 0;
    }
  }

  ghost predicate StrictlyIncreasing(s: seq<int>) {
    forall i, j :: 0 <= i < j < |s| ==> s[i] < s[j]
  }

  /** A value below every element of an increasing sequence can be put in front of it. */
  lemma PrependIncreasing(x: int, r: seq<int>)
    requires StrictlyIncreasing(r)
    requires forall k :: 0 <= k < |r| ==> x < r[k]
    ensures StrictlyIncreasing([x] + r)
  {
    var t := [x] + r;
    forall i, j | 0 <= i < j < |t| ensures t[i] < t[j] {
      assert t[j] == r[j - 1];
      if i > 0 {
        assert t[i] == r[i - 1];
      }
    }
  }

  /** What Filter keeps of the tail of an increasing sequence lies above its head. */
  lemma FilteredTailAboveHead(s: seq<nat>, keep: nat -> bool)
    requires s != [] && StrictlyIncreasing(s)
    ensures forall k :: 0 <= k < |Filter(s[1..], keep)| ==> s[0] < Filter(s[1..], keep)[k]
  {
    var rest := Filter(s[1..], keep);
    FilterMembership(s[1..], keep);
    forall k | 0 <= k < |rest| ensures s[0] < rest[k] {
      assert rest[k] in s[1..];
      var j :| 0 <= j < |s| - 1 && s[1..][j] == rest[k];
      assert s[j + 1] == rest[k];
    }
  }

  lemma {:induction false} FilterKeepsIncreasing(s: seq<nat>, keep: nat -> bool)
    requires StrictlyIncreasing(s)
    ensures StrictlyIncreasing(Filter(s, keep))
  {
    if s != [] {
      assert StrictlyIncreasing(s[1..]) by {
        forall i, j | 0 <= i < j < |s| - 1 ensures s[1..][i] < s[1..][j] {
          assert s[1..][i] == s[i + 1] && s[1..][j] == s[j + 1];
        }
      }
      FilterKeepsIncreasing(s[1..], keep);
      FilteredTailAboveHead(s, keep);
      if keep(s[0]) {
        PrependIncreasing(s[0], Filter(s[1..], keep));
      }
    }
  }

  /** A strictly increasing sequence holds every value at most once. */
  lemma {:induction false} IncreasingHasNoDuplicates(s: seq<int>)
    requires StrictlyIncreasing(s)
    ensures forall x :: multiset(s)[x] <= 1
  {
    if s != [] {
      IncreasingHasNoDuplicates(s[1..]);
      assert s == [s[0]] + s[1..];
      assert s[0] !in s[1..];
    }
  }

  /** `[0, 1, ..., n - 1]`: the positions of an array of length `n`. */
  function Positions(n: nat): (r: seq<nat>)
    ensures |r| == n && forall k :: 0 <= k < n ==> r[k] == k
    ensures StrictlyIncreasing(r)
  {
    seq(n, k requires 0 <= k < n => k)
  }

  ghost predicate SortedBy<T>(s: seq<T>, key: T -> int) {
    forall i, j :: 0 <= i < j < |s| ==> key(s[i]) <= key(s[j])
  }

  /** Insertion of `x` into a sorted sequence, before the elements whose key is not smaller. */
  function Insert<T>(x: T, s: seq<T>, key: T -> int): (r: seq<T>)
    requires SortedBy(s, key)
    ensures |r| == |s| + 1
    ensures SortedBy(r, key)
    ensures multiset(r) == multiset(s) + multiset{x}
    ensures key(r[0]) == key(x) || (|s| > 0 && key(r[0]) == key(s[0]))
  {
    if s == [] || key(x) <= key(s[0]) then [x] + s
    else
      var rest := Insert(x, s[1..], key);
      assert s == [s[0]] + s[1..];
      assert forall j :: 0 <= j < |rest| ==> key(s[0]) <= key(rest[j]) by {
        assert key(s[0]) <= key(rest[0]);
      }
      [s[0]] + rest
  }

  /** `s.sort((a, b) => key(a) - key(b))`: the elements of `s` rearranged in ascending key order. */
  function SortBy<T>(s: seq<T>, key: T -> int): (r: seq<T>)
    ensures |r| == |s|
    ensures SortedBy(r, key)
    ensures multiset(r) == multiset(s)
  {
    if s == [] then []
    else
      assert s == [s[0]] + s[1..];
      Insert(s[0], SortBy(s[1..], key), key)
  }

  /** The index `Array.prototype.slice` makes of a start or end argument. */
  function SliceIndex(i: int, len: nat): (r: nat)
    ensures r <= len
    ensures 0 <= i ==> r == Min(i, len)
  {
    if i < 0 then (if len + i < 0 then 0 else len + i)
    else if i > len then len else i
  }

  /** `s.slice(start, end)`. */
  function JsSlice<T>(s: seq<T>, start: int, end: int): (r: seq<T>)
    ensures |r| <= |s|
  {
    var from := SliceIndex(start, |s|);
    var to := SliceIndex(end, |s|);
    if from < to then s[from..to] else []
  }

  /** A slice of `size` elements from a non-negative `start`, clipped to the end of `s`. */
  lemma SliceFrom<T>(s: seq<T>, start: int, size: int)
    requires start >= 0 && size >= 1
    ensures JsSlice(s, start, start + size) == s[Min(start, |s|)..Min(start + size, |s|)]
    ensures |JsSlice(s, start, start + size)| == Min(size, |s| - Min(start, |s|))
  {
  }

  /** Where page `page` (counted from 1) of `size` elements starts. */
  function PageStart(page: int, size: int): int {
    (page - 1) * size
  }

  lemma PageStartNonNegative(page: int, size: int)
    requires page >= 1 && size >= 1
    ensures PageStart(page, size) >= 0
  {
  }

  /** Page `page` (counted from 1) of `size` elements: the part of `s` from its start, at most `size` long. */
  lemma PageOfSlice<T>(s: seq<T>, page: int, size: int)
    requires page >= 1 && size >= 1
    ensures var start := PageStart(page, size);
            start >= 0
            && JsSlice(s, start, start + size) == s[Min(start, |s|)..Min(start + size, |s|)]
            && |JsSlice(s, start, start + size)| == Min(size, |s| - Min(start, |s|))
  {
    PageStartNonNegative(page, size);
    SliceFrom(s, PageStart(page, size), size);
  }
}
