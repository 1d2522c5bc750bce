/**
 * Sorting by a strict total order, standing in for Rust's `sort` and
 * `sort_by_key` on vectors whose elements are pairwise distinct.
 */
module Sorting {

  /** `less` is irreflexive, transitive and relates every two distinct values. */
  ghost predicate StrictTotalOrder<T(!new)>(less: (T, T) -> bool)
  {
    && (forall a :: !less(a, a))
    && (forall a, b, c :: less(a, b) && less(b, c) ==> less(a, c))
    && (forall a, b :: a != b ==> less(a, b) || less(b, a))
  }

  predicate StrictlySorted<T>(less: (T, T) -> bool, s: seq<T>)
  {
    forall i, j :: 0 <= i < j < |s| ==> less(s[i], s[j])
  }

  predicate Distinct<T(==)>(s: seq<T>)
  {
    forall i, j :: 0 <= i < j < |s| ==> s[i] != s[j]
  }

  /** Insertion of `x` at its place in a strictly sorted sequence. */
  function Insert<T(==, !new)>(less: (T, T) -> bool, x: T, s: seq<T>): (r: seq<T>)
    requires StrictTotalOrder(less)
    requires StrictlySorted(less, s) && x !in s
    ensures StrictlySorted(less, r)
    ensures multiset(r) == multiset(s) + multiset{x}
  {
    if s == [] then [x]
    else if less(x, s[0]) then
      assert forall j :: 0 <= j < |s| ==> less(x, s[j]) by {
        forall j | 0 <= j < |s| ensures less(x, s[j]) {
          if j > 0 { assert less(s[0], s[j]); }
        }
      }
      [x] + s
    else
      assert less(s[0], x);
      var rest := Insert(less, x, s[1..]);
      assert s == [s[0]] + s[1..];
      assert forall j :: 0 <= j < |rest| ==> less(s[0], rest[j]) by {
        forall j | 0 <= j < |rest| ensures less(s[0], rest[j]) {
          assert rest[j] in multiset(rest);
          if rest[j] != x {
            assert rest[j] in multiset(s[1..]);
            var k :| 0 <= k < |s[1..]| && s[1..][k] == rest[j];
            assert less(s[0], s[k + 1]);
          }
        }
      }
      [s[0]] + rest
  }

  /** The elements of `s` in increasing `less` order. */
  function SortBy<T(==, !new)>(less: (T, T) -> bool, s: seq<T>): (r: seq<T>)
    requires StrictTotalOrder(less)
    requires Distinct(s)
    ensures StrictlySorted(less, r)
    ensures multiset(r) == multiset(s)
  {
    if s == [] then []
    else
      var rest := SortBy(less, s[1..]);
      assert s == [s[0]] + s[1..];
      assert s[0] !in s[1..] by {
        forall k | 0 <= k < |s[1..]| ensures s[1..][k] != s[0] {
          assert s[k + 1] != s[0];
        }
      }
      assert s[0] !in multiset(rest);
      Insert(less, s[0], rest)
  }
}
