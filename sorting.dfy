/**
 * Ascending order by a text column, as `ORDER BY name ASC` returns rows:
 * strings compared code point by code point, a prefix before its
 * extensions.  SQL leaves the order of rows with equal keys open; the
 * sort below puts them in one particular order, and nothing here relies on
 * which.
 */
module Sorting {
  import opened Wrappers

  /** `a <= b` in lexicographic order of code points. */
  predicate StrLe(a: string, b: string)
    decreases |a|
  {
    a == [] || (b != [] && (a[0] < b[0] || (a[0] == b[0] && StrLe(a[1..], b[1..]))))
  }

  lemma {:induction false} StrLeRefl(a: string)
    ensures StrLe(a, a)
    decreases |a|
  {
    if a != [] {
      StrLeRefl(a[1..]);
    }
  }

  lemma {:induction false} StrLeTotal(a: string, b: string)
    ensures StrLe(a, b) || StrLe(b, a)
    decreases |a|
  {
    if a != [] && b != [] && a[0] == b[0] {
      StrLeTotal(a[1..], b[1..]);
    }
  }

  lemma {:induction false} StrLeTrans(a: string, b: string, c: string)
    requires StrLe(a, b) && StrLe(b, c)
    ensures StrLe(a, c)
    decreases |a|
  {
    if a != [] && a[0] == b[0] && b[0] == c[0] {
      StrLeTrans(a[1..], b[1..], c[1..]);
    }
  }

  lemma {:induction false} StrLeAntisymmetric(a: string, b: string)
    requires StrLe(a, b) && StrLe(b, a)
    ensures a == b
    decreases |a|
  {
    if a != [] {
      StrLeAntisymmetric(a[1..], b[1..]);
      assert a == [a[0]] + a[1..] && b == [b[0]] + b[1..];
    }
  }

  /** The keys of `s` ascend. */
  predicate SortedBy<T>(s: seq<T>, key: T -> string) {
    forall i, j | 0 <= i < j < |s| :: StrLe(key(s[i]), key(s[j]))
  }

  /** `x` put in front of the first element of `s` whose key is greater than its own. */
  function Insert<T>(x: T, s: seq<T>, key: T -> string): (r: seq<T>)
    ensures multiset(r) == multiset(s) + multiset{x}
    ensures |r| == |s| + 1
  {
    if s == [] then [x]
    else
      assert s == [s[0]] + s[1..];
      if StrLe(key(s[0]), key(x)) then [s[0]] + Insert(x, s[1..], key) else [x] + s
  }

  /** The rows of `s` in ascending order of their keys. */
  function SortBy<T>(s: seq<T>, key: T -> string): (r: seq<T>)
    ensures multiset(r) == multiset(s)
  {
    if s == [] then []
    else
      assert s == [s[0]] + s[1..];
      Insert(s[0], SortBy(s[1..], key), key)
  }

  /** The tail of a sorted sequence is sorted. */
  lemma SortedTail<T>(s: seq<T>, key: T -> string)
    requires s != [] && SortedBy(s, key)
    ensures SortedBy(s[1..], key)
  {
    var t := s[1..];
    forall i, j | 0 <= i < j < |t| ensures StrLe(key(t[i]), key(t[j])) {
      assert t[i] == s[i + 1] && t[j] == s[j + 1];
    }
  }

  /** A sorted sequence with a first element no greater than any of its keys is sorted. */
  lemma SortedCons<T>(h: T, u: seq<T>, key: T -> string)
    requires SortedBy(u, key)
    requires forall k | 0 <= k < |u| :: StrLe(key(h), key(u[k]))
    ensures SortedBy([h] + u, key)
  {
    var r := [h] + u;
    forall i, j | 0 <= i < j < |r| ensures StrLe(key(r[i]), key(r[j])) {
      if i == 0 {
        assert r[j] == u[j - 1];
      } else {
        assert r[i] == u[i - 1] && r[j] == u[j - 1];
      }
    }
  }

  /** A lower bound of `x` and of every key of `t` bounds every key after the insertion. */
  lemma InsertBound<T>(x: T, t: seq<T>, key: T -> string, lo: string)
    requires StrLe(lo, key(x))
    requires forall k | 0 <= k < |t| :: StrLe(lo, key(t[k]))
    ensures forall k | 0 <= k < |Insert(x, t, key)| :: StrLe(lo, key(Insert(x, t, key)[k]))
  {
    var u := Insert(x, t, key);
    forall k | 0 <= k < |u| ensures StrLe(lo, key(u[k])) {
      assert u[k] in multiset(u);
      assert u[k] in multiset(t) || u[k] == x;
      if u[k] != x {
        var m :| 0 <= m < |t| && t[m] == u[k];
      }
    }
  }

  /** Inserting into a sorted sequence keeps it sorted. */
  lemma {:induction false} InsertSorted<T>(x: T, s: seq<T>, key: T -> string)
    requires SortedBy(s, key)
    ensures SortedBy(Insert(x, s, key), key)
  {
    if s != [] {
      if StrLe(key(s[0]), key(x)) {
        var t := s[1..];
        SortedTail(s, key);
        InsertSorted(x, t, key);
        assert forall k | 0 <= k < |t| :: StrLe(key(s[0]), key(t[k])) by {
          assert forall k | 0 <= k < |t| :: t[k] == s[k + 1];
        }
        InsertBound(x, t, key, key(s[0]));
        var u := Insert(x, t, key);
        assert SortedBy(u, key);
        assert forall k | 0 <= k < |u| :: StrLe(key(s[0]), key(u[k]));
        SortedCons(s[0], u, key);
        assert Insert(x, s, key) == [s[0]] + u;
      } else {
        StrLeTotal(key(s[0]), key(x));
        forall k | 0 <= k < |s| ensures StrLe(key(x), key(s[k])) {
          if k > 0 {
            StrLeTrans(key(x), key(s[0]), key(s[k]));
          }
        }
        SortedCons(x, s, key);
      }
    }
  }

  /** `SortBy` sorts. */
  lemma {:induction false} SortBySorted<T>(s: seq<T>, key: T -> string)
    ensures SortedBy(SortBy(s, key), key)
  {
    if s != [] {
      SortBySorted(s[1..], key);
      InsertSorted(s[0], SortBy(s[1..], key), key);
    }
  }

  /** The first `n` rows, or all of them: SQL `LIMIT n`, and no limit for `None`. */
  function Take<T>(s: seq<T>, limit: Option<nat>): (r: seq<T>)
    ensures limit.Some? ==> |r| == if limit.value < |s| then limit.value else |s|
    ensures limit.None? ==> r == s
    ensures r == s[..|r|]
  {
    if limit.Some? && limit.value < |s| then s[..limit.value] else s
  }
}
