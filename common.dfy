/** Sequence helpers shared by every script model: an Option type for the
    error paths, Python's prefix slice `s[:n]` (also the meaning of pandas'
    `head(n)`), list-comprehension filters, boolean-mask selection (numpy and
    pandas indexing by a mask) and the subsequence relation. */
module Common {

  datatype Option<+T> = None | Some(value: T)

  function Min(a: int, b: int): int { if a <= b then a else b }
  function Max(a: int, b: int): int { if a >= b then a else b }

  /** Python's `s[:n]`, including a negative `n`, which drops the last `-n` items. */
  function Prefix<T>(s: seq<T>, n: int): (r: seq<T>)
    ensures |r| <= |s| && r == s[..|r|]
    ensures n >= 0 ==> |r| == Min(n, |s|)
    ensures n < 0 ==> |r| == Max(0, |s| + n)
  {
    if n >= 0 then (if n <= |s| then s[..n] else s)
    else if |s| + n >= 0 then s[..|s| + n] else []
  }

  /** `[x for x in s if p(x)]` */
  function Filter<T>(s: seq<T>, p: T -> bool): (r: seq<T>)
    ensures |r| <= |s|
    ensures forall i :: 0 <= i < |r| ==> r[i] in s && p(r[i])
    ensures forall i :: 0 <= i < |s| && p(s[i]) ==> s[i] in r
  {
    if s == [] then []
    else (if p(s[0]) then [s[0]] else []) + Filter(s[1..], p)
  }

  /** Filtering by a predicate and by its negation splits the sequence. */
  lemma {:induction false} FilterPartitionLength<T>(s: seq<T>, p: T -> bool, q: T -> bool)
    requires forall x :: q(x) == !p(x)
    ensures |Filter(s, p)| + |Filter(s, q)| == |s|
  {
    if s != [] {
      FilterPartitionLength(s[1..], p, q);
    }
  }

  /** The two filtered parts together hold exactly the elements of `s`. */
  lemma {:induction false} FilterPartitionMultiset<T>(s: seq<T>, p: T -> bool, q: T -> bool)
    requires forall x :: q(x) == !p(x)
    ensures multiset(Filter(s, p)) + multiset(Filter(s, q)) == multiset(s)
  {
    if s != [] {
      var t := s[1..];
      FilterPartitionMultiset(t, p, q);
      assert s == [s[0]] + t;
      if p(s[0]) {
        assert Filter(s, p) == [s[0]] + Filter(t, p);
        assert Filter(s, q) == Filter(t, q);
      } else {
        assert Filter(s, p) == Filter(t, p);
        assert Filter(s, q) == [s[0]] + Filter(t, q);
      }
    }
  }

  /** `a` can be obtained from `b` by deleting elements; order is kept. */
  predicate IsSubsequence<T(==)>(a: seq<T>, b: seq<T>)
  {
    a == [] ||
    (b != [] && ((a[0] == b[0] && IsSubsequence(a[1..], b[1..])) || IsSubsequence(a, b[1..])))
  }

  lemma {:induction false} FilterIsSubsequence<T>(s: seq<T>, p: T -> bool)
    ensures IsSubsequence(Filter(s, p), s)
  {
    if s != [] {
      FilterIsSubsequence(s[1..], p);
      if p(s[0]) {
        assert Filter(s, p) == [s[0]] + Filter(s[1..], p);
        assert Filter(s, p)[1..] == Filter(s[1..], p);
      } else {
        assert Filter(s, p) == Filter(s[1..], p);
      }
    }
  }

  lemma {:induction false} SubsequenceMembers<T>(a: seq<T>, b: seq<T>)
    requires IsSubsequence(a, b)
    ensures |a| <= |b|
    ensures forall x :: x in a ==> x in b
  {
    if a != [] {
      if a[0] == b[0] && IsSubsequence(a[1..], b[1..]) {
        SubsequenceMembers(a[1..], b[1..]);
        assert forall x :: x in a ==> x == a[0] || x in a[1..];
      } else {
        SubsequenceMembers(a, b[1..]);
      }
    }
  }

  lemma {:induction false} PrefixIsSubsequence<T>(s: seq<T>, k: nat)
    requires k <= |s|
    ensures IsSubsequence(s[..k], s)
  {
    if k > 0 {
      PrefixIsSubsequence(s[1..], k - 1);
      assert s[..k][1..] == s[1..][..k - 1];
    }
  }

  lemma {:induction false} SubsequenceTransitive<T>(a: seq<T>, b: seq<T>, c: seq<T>)
    requires IsSubsequence(a, b) && IsSubsequence(b, c)
    ensures IsSubsequence(a, c)
    decreases |c|
  {
    if a != [] {
      if b[0] == c[0] && IsSubsequence(b[1..], c[1..]) {
        if a[0] == b[0] && IsSubsequence(a[1..], b[1..]) {
          SubsequenceTransitive(a[1..], b[1..], c[1..]);
        } else {
          SubsequenceTransitive(a, b[1..], c[1..]);
        }
      } else {
        SubsequenceTransitive(a, b, c[1..]);
      }
    }
  }

  /** Selection by a boolean mask, as `s[mask]` in numpy or pandas. numpy
      raises `IndexError` on a mask of the wrong length; every caller in this
      model passes a mask as long as `s` (one entry per feature or per cell),
      and positions past the shorter of the two would be dropped. */
  function FilterByMask<T>(s: seq<T>, mask: seq<bool>): (r: seq<T>)
    ensures |r| <= |s|
  {
    if s == [] || mask == [] then []
    else (if mask[0] then [s[0]] else []) + FilterByMask(s[1..], mask[1..])
  }

  /** Number of true entries of `mask`. */
  function CountTrue(mask: seq<bool>): nat
  {
    if mask == [] then 0 else (if mask[0] then 1 else 0) + CountTrue(mask[1..])
  }

  lemma {:induction false} FilterByMaskLength<T>(s: seq<T>, mask: seq<bool>)
    requires |s| == |mask|
    ensures |FilterByMask(s, mask)| == CountTrue(mask)
  {
    if s != [] {
      FilterByMaskLength(s[1..], mask[1..]);
    }
  }

  lemma {:induction false} FilterByMaskMembers<T>(s: seq<T>, mask: seq<bool>, x: T)
    ensures x in FilterByMask(s, mask) <==>
            exists i :: 0 <= i < |s| && i < |mask| && mask[i] && s[i] == x
  {
    if s != [] && mask != [] {
      FilterByMaskMembers(s[1..], mask[1..], x);
      var r := FilterByMask(s, mask);
      assert r == (if mask[0] then [s[0]] else []) + FilterByMask(s[1..], mask[1..]);
      if x in r {
        if mask[0] && x == s[0] {
        } else {
          assert x in FilterByMask(s[1..], mask[1..]);
          var i :| 0 <= i < |s[1..]| && i < |mask[1..]| && mask[1..][i] && s[1..][i] == x;
          assert mask[i + 1] && s[i + 1] == x;
        }
      }
      if exists i :: 0 <= i < |s| && i < |mask| && mask[i] && s[i] == x {
        var i :| 0 <= i < |s| && i < |mask| && mask[i] && s[i] == x;
        if i > 0 {
          assert mask[1..][i - 1] && s[1..][i - 1] == x;
        }
      }
    }
  }

  /** A mask computed from each element is the same as a comprehension filter. */
  lemma {:induction false} FilterByPointwiseMask<T>(s: seq<T>, mask: seq<bool>, p: T -> bool)
    requires |mask| == |s|
    requires forall i :: 0 <= i < |s| ==> mask[i] == p(s[i])
    ensures FilterByMask(s, mask) == Filter(s, p)
  {
    if s != [] {
      FilterByPointwiseMask(s[1..], mask[1..], p);
    }
  }

  /** Elements are pairwise distinct. */
  predicate Distinct<T(==)>(s: seq<T>)
  {
    forall i, j :: 0 <= i < j < |s| ==> s[i] != s[j]
  }

  /** Filtering keeps distinct elements distinct. */
  lemma {:induction false} FilterDistinct<T>(s: seq<T>, p: T -> bool)
    requires Distinct(s)
    ensures Distinct(Filter(s, p))
  {
    if s != [] {
      FilterDistinct(s[1..], p);
      assert forall j :: 0 <= j < |s[1..]| ==> s[1..][j] == s[j + 1];
      assert s[0] !in s[1..];
    }
  }

  /** Position of the first occurrence of `x`. */
  function IndexOf<T(==)>(s: seq<T>, x: T): (i: nat)
    requires x in s
    ensures i < |s| && s[i] == x
    ensures forall j :: 0 <= j < i ==> s[j] != x
  {
    if s[0] == x then 0 else 1 + IndexOf(s[1..], x)
  }
}
