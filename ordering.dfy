/** The "newest first" ordering the backend asks MongoDB for with
    `.sort({ field: -1 })`: an insertion sort on an integer key,
    proved to return a permutation of its input in non-increasing key order. */
module Ordering {

  /** Non-increasing in `key`: every element is at least as recent as every
      later one. */
  predicate SortedDesc<T>(s: seq<T>, key: T -> int)
  {
    forall i, j :: 0 <= i < j < |s| ==> key(s[i]) >= key(s[j])
  }

  /** Places `x` before the first element that is not more recent than it. */
  function InsertDesc<T>(s: seq<T>, x: T, key: T -> int): (r: seq<T>)
    requires SortedDesc(s, key)
    ensures SortedDesc(r, key)
    ensures multiset(r) == multiset(s) + multiset{x}
    ensures |r| == |s| + 1
  {
    if s == [] || key(x) >= key(s[0]) then
      [x] + s
    else
      var t := InsertDesc(s[1..], x, key);
      HeadBoundsTail(s, key);
      BoundedPermutation(t, s[1..], x, key, key(s[0]));
      ConsSorted(s[0], t, key);
      assert s == [s[0]] + s[1..];
      [s[0]] + t
  }

  /** In a sorted sequence, the head is at least as recent as the rest. */
  lemma HeadBoundsTail<T>(s: seq<T>, key: T -> int)
    requires s != [] && SortedDesc(s, key)
    ensures forall j :: 0 <= j < |s[1..]| ==> key(s[1..][j]) <= key(s[0])
  {
    forall j | 0 <= j < |s[1..]| ensures key(s[1..][j]) <= key(s[0]) {
      assert s[1..][j] == s[j + 1];
    }
  }

  /** A sorted sequence stays sorted behind an element at least as recent. */
  lemma ConsSorted<T>(h: T, t: seq<T>, key: T -> int)
    requires SortedDesc(t, key)
    requires forall j :: 0 <= j < |t| ==> key(t[j]) <= key(h)
    ensures SortedDesc([h] + t, key)
  {
    var r := [h] + t;
    forall i, j | 0 <= i < j < |r| ensures key(r[i]) >= key(r[j]) {
      assert r[j] == t[j - 1];
      if i > 0 { assert r[i] == t[i - 1]; }
    }
  }

  /** A permutation of `u` plus `x` is bounded by any bound of `u` and `x`. */
  lemma BoundedPermutation<T>(t: seq<T>, u: seq<T>, x: T, key: T -> int, bound: int)
    requires multiset(t) == multiset(u) + multiset{x}
    requires forall j :: 0 <= j < |u| ==> key(u[j]) <= bound
    requires key(x) <= bound
    ensures forall j :: 0 <= j < |t| ==> key(t[j]) <= bound
  {
    forall j | 0 <= j < |t| ensures key(t[j]) <= bound {
      var y := t[j];
      assert y in multiset(t);
      if y != x {
        assert y in multiset(u);
        var k :| 0 <= k < |u| && u[k] == y;
      }
    }
  }

  /** `.sort({ key: -1 })`: the same elements, newest first. */
  function SortDesc<T>(s: seq<T>, key: T -> int): (r: seq<T>)
    ensures SortedDesc(r, key)
    ensures multiset(r) == multiset(s)
    ensures |r| == |s|
  {
    if s == [] then []
    else
      assert s == [s[0]] + s[1..];
      InsertDesc(SortDesc(s[1..], key), s[0], key)
  }

  /** No element occurs twice. */
  predicate Distinct<T(==)>(s: seq<T>)
  {
    forall i, j :: 0 <= i < j < |s| ==> s[i] != s[j]
  }

  lemma {:induction false} DistinctAtMostOnce<T>(s: seq<T>, x: T)
    requires Distinct(s)
    ensures multiset(s)[x] <= 1
  {
    if s != [] {
      assert s == [s[0]] + s[1..];
      assert Distinct(s[1..]) by {
        forall i, j | 0 <= i < j < |s[1..]| ensures s[1..][i] != s[1..][j] {
          assert s[1..][i] == s[i + 1] && s[1..][j] == s[j + 1];
        }
      }
      DistinctAtMostOnce(s[1..], x);
      if x == s[0] {
        assert x !in s[1..] by {
          forall k | 0 <= k < |s[1..]| ensures s[1..][k] != x {
            assert s[1..][k] == s[k + 1];
          }
        }
      }
    }
  }

  /** A permutation of a sequence without repeats has no repeats either. */
  lemma DistinctPermutation<T>(a: seq<T>, b: seq<T>)
    requires multiset(a) == multiset(b)
    requires Distinct(a)
    ensures Distinct(b)
  {
    forall i, j | 0 <= i < j < |b| ensures b[i] != b[j] {
      if b[i] == b[j] {
        var x := b[i];
        assert b == b[..j] + [b[j]] + b[j + 1..];
        assert b[..j][i] == x;
        assert multiset(b)[x] >= 2;
        DistinctAtMostOnce(a, x);
        assert false;
      }
    }
  }
}
