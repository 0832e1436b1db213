/** Sorting by a real-valued key, largest first: the role of pandas'
    `sort_values(key, ascending=False)` and of Python's
    `sorted(xs, key=..., reverse=True)`. The insertion sort below is stable,
    as Python's `sorted` is; pandas' default sort is not, so for pandas only
    the order of distinct keys is significant. */
module Sorting {

  import opened Common

  predicate SortedDesc<T>(s: seq<T>, key: T -> real)
  {
    forall i, j :: 0 <= i < j < |s| ==> key(s[i]) >= key(s[j])
  }

  /** Inserts `x` before the first element whose key is not larger. */
  function InsertDesc<T(==)>(x: T, s: seq<T>, key: T -> real): (r: seq<T>)
    ensures |r| == |s| + 1
    ensures multiset(r) == multiset(s) + multiset{x}
  {
    if s == [] || key(x) >= key(s[0]) then [x] + s
    else
      assert s == [s[0]] + s[1..];
      [s[0]] + InsertDesc(x, s[1..], key)
  }

  lemma {:induction false} InsertDescSorted<T>(x: T, s: seq<T>, key: T -> real)
    requires SortedDesc(s, key)
    ensures SortedDesc(InsertDesc(x, s, key), key)
  {
    if s != [] && key(x) < key(s[0]) {
      var rest := InsertDesc(x, s[1..], key);
      InsertDescSorted(x, s[1..], key);
      forall y | y in rest ensures key(y) <= key(s[0]) {
        assert y in multiset(rest);
        if y != x {
          assert y in multiset(s[1..]);
        }
      }
      var r := [s[0]] + rest;
      forall i, j | 0 <= i < j < |r| ensures key(r[i]) >= key(r[j]) {
        assert r[j] == rest[j - 1];
        if i > 0 { assert r[i] == rest[i - 1]; }
      }
    }
  }

  function SortDesc<T(==)>(s: seq<T>, key: T -> real): (r: seq<T>)
    ensures |r| == |s|
    ensures multiset(r) == multiset(s)
    ensures SortedDesc(r, key)
  {
    if s == [] then []
    else
      assert s == [s[0]] + s[1..];
      var t := SortDesc(s[1..], key);
      InsertDescSorted(s[0], t, key);
      InsertDesc(s[0], t, key)
  }

  /** The first `k` items of a sorted permutation of `s` are the top `k`:
      every item of `s` is either among them or has a key no larger than any
      of theirs. */
  lemma SortedPrefixIsTop<T>(s: seq<T>, key: T -> real, k: nat, x: T)
    requires k <= |s|
    requires x in s
    ensures var r := SortDesc(s, key);
            x in r[..k] || forall y :: y in r[..k] ==> key(y) >= key(x)
  {
    var r := SortDesc(s, key);
    assert x in multiset(s);
    assert x in multiset(r);
    var j :| 0 <= j < |r| && r[j] == x;
    if j >= k {
      forall y | y in r[..k] ensures key(y) >= key(x) {
        var i :| 0 <= i < k && r[..k][i] == y;
        assert r[i] == y;
      }
    } else {
      assert r[..k][j] == x;
    }
  }

  /** A subsequence of a sorted sequence is sorted. */
  lemma {:induction false} SubsequenceOfSorted<T>(a: seq<T>, b: seq<T>, key: T -> real)
    requires IsSubsequence(a, b)
    requires SortedDesc(b, key)
    ensures SortedDesc(a, key)
  {
    if a != [] {
      if a[0] == b[0] && IsSubsequence(a[1..], b[1..]) {
        SubsequenceOfSorted(a[1..], b[1..], key);
        SubsequenceMembers(a[1..], b[1..]);
        forall i, j | 0 <= i < j < |a| ensures key(a[i]) >= key(a[j]) {
          if i == 0 {
            assert a[j] == a[1..][j - 1];
            assert a[j] in b[1..];
            var m :| 0 <= m < |b[1..]| && b[1..][m] == a[j];
            assert b[m + 1] == a[j];
          } else {
            assert a[i] == a[1..][i - 1] && a[j] == a[1..][j - 1];
          }
        }
      } else {
        SubsequenceOfSorted(a, b[1..], key);
      }
    }
  }
}
