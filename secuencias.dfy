/**
 * The two stream operations the core keeps using: `filter(...).collect(toList())`,
 * which keeps order, and a stable `sorted(comparator)` on one integer key
 * (a departure time or an event time), ascending or descending.
 */
module Secuencias {

  /** `s.stream().filter(p).collect(toList())`. */
  function Filter<T(!new)>(s: seq<T>, p: T -> bool): (r: seq<T>)
    ensures |r| <= |s|
    ensures forall x :: x in r <==> x in s && p(x)
    ensures forall x :: multiset(r)[x] == if p(x) then multiset(s)[x] else 0
    ensures forall i :: 0 <= i < |r| ==> p(r[i])
    decreases |s|
  {
    if s == [] then []
    else
      assert s == [s[0]] + s[1..];
      if p(s[0]) then [s[0]] + Filter(s[1..], p) else Filter(s[1..], p)
  }

  /** Filtering distributes over concatenation: the kept elements come out in input order. */
  lemma {:induction false} FilterConcat<T(!new)>(a: seq<T>, b: seq<T>, p: T -> bool)
    ensures Filter(a + b, p) == Filter(a, p) + Filter(b, p)
    decreases |a|
  {
    if a == [] {
      assert a + b == b;
    } else {
      var ab := a + b;
      assert ab[0] == a[0] && ab[1..] == a[1..] + b;
      FilterConcat(a[1..], b, p);
      if p(a[0]) {
        calc {
          Filter(ab, p);
          [a[0]] + Filter(a[1..] + b, p);
          [a[0]] + (Filter(a[1..], p) + Filter(b, p));
          ([a[0]] + Filter(a[1..], p)) + Filter(b, p);
        }
      } else {
        calc {
          Filter(ab, p);
          Filter(a[1..] + b, p);
        }
      }
    }
  }

  /** Filtering a list whose elements all pass leaves it as it is. */
  lemma {:induction false} FilterKeepsAll<T(!new)>(s: seq<T>, p: T -> bool)
    requires forall i :: 0 <= i < |s| ==> p(s[i])
    ensures Filter(s, p) == s
    decreases |s|
  {
    if s != [] {
      FilterKeepsAll(s[1..], p);
    }
  }

  /** Filtering twice is filtering by the conjunction. */
  lemma {:induction false} FilterFilter<T(!new)>(s: seq<T>, p: T -> bool, q: T -> bool)
    ensures Filter(Filter(s, p), q) == Filter(s, x => p(x) && q(x))
    decreases |s|
  {
    if s != [] {
      FilterFilter(s[1..], p, q);
    }
  }

  /** `x` goes before `y` in the order given by key `k`, ascending or (`desc`) descending. */
  predicate Before<T(!new)>(k: T -> int, desc: bool, x: T, y: T) {
    if desc then k(x) >= k(y) else k(x) <= k(y)
  }

  predicate SortedBy<T(!new)>(s: seq<T>, k: T -> int, desc: bool) {
    forall i, j :: 0 <= i < j < |s| ==> Before(k, desc, s[i], s[j])
  }

  /**
   * Inserts `x` before the first element it may precede; equal keys keep `x`
   * in front, so building a list from its tail with this is a stable sort.
   */
  function Insert<T(!new)>(x: T, s: seq<T>, k: T -> int, desc: bool): (r: seq<T>)
    ensures |r| == |s| + 1
    ensures multiset(r) == multiset(s) + multiset{x}
    ensures forall j :: 0 <= j < |r| ==> r[j] == x || r[j] in s
    decreases |s|
  {
    if s == [] || Before(k, desc, x, s[0]) then [x] + s
    else
      assert s == [s[0]] + s[1..];
      [s[0]] + Insert(x, s[1..], k, desc)
  }

  /** Inserting into a sorted list keeps it sorted. */
  lemma {:induction false} InsertSorted<T(!new)>(x: T, s: seq<T>, k: T -> int, desc: bool)
    requires SortedBy(s, k, desc)
    ensures SortedBy(Insert(x, s, k, desc), k, desc)
    decreases |s|
  {
    if s == [] || Before(k, desc, x, s[0]) {
      var r := [x] + s;
      forall i, j | 0 <= i < j < |r| ensures Before(k, desc, r[i], r[j]) {
        if i > 0 {
          assert r[i] == s[i - 1] && r[j] == s[j - 1];
        } else {
          assert r[j] == s[j - 1];
          assert j - 1 == 0 || Before(k, desc, s[0], s[j - 1]);
        }
      }
    } else {
      var t := Insert(x, s[1..], k, desc);
      InsertSorted(x, s[1..], k, desc);
      var r := [s[0]] + t;
      assert r == Insert(x, s, k, desc);
      forall i, j | 0 <= i < j < |r| ensures Before(k, desc, r[i], r[j]) {
        if i > 0 {
          assert r[i] == t[i - 1] && r[j] == t[j - 1];
        } else {
          assert r[j] == t[j - 1];
          if t[j - 1] != x {
            var m :| 0 <= m < |s[1..]| && s[1..][m] == t[j - 1];
            assert s[m + 1] == t[j - 1];
          }
        }
      }
    }
  }

  /** A sorted list stays sorted with an element in front that goes before all of it. */
  lemma ConsSorted<T(!new)>(x: T, t: seq<T>, k: T -> int, desc: bool)
    requires SortedBy(t, k, desc)
    requires forall y :: y in t ==> Before(k, desc, x, y)
    ensures SortedBy([x] + t, k, desc)
  {
    var r := [x] + t;
    forall i, j | 0 <= i < j < |r| ensures Before(k, desc, r[i], r[j]) {
      assert r[j] == t[j - 1];
      if i > 0 {
        assert r[i] == t[i - 1];
      }
    }
  }

  /** Filtering a sorted list leaves it sorted. */
  lemma {:induction false} FilterSorted<T(!new)>(s: seq<T>, p: T -> bool, k: T -> int, desc: bool)
    requires SortedBy(s, k, desc)
    ensures SortedBy(Filter(s, p), k, desc)
    decreases |s|
  {
    if s != [] {
      var t := Filter(s[1..], p);
      FilterSorted(s[1..], p, k, desc);
      if p(s[0]) {
        forall y | y in t ensures Before(k, desc, s[0], y) {
          var m :| 0 <= m < |s[1..]| && s[1..][m] == y;
          assert s[m + 1] == y;
        }
        ConsSorted(s[0], t, k, desc);
      }
    }
  }

  /** `list.sort(comparing(k))` (or its reverse): a stable insertion sort. */
  function SortBy<T(!new)>(s: seq<T>, k: T -> int, desc: bool): (r: seq<T>)
    ensures |r| == |s|
    ensures multiset(r) == multiset(s)
    ensures SortedBy(r, k, desc)
    decreases |s|
  {
    if s == [] then []
    else
      assert s == [s[0]] + s[1..];
      InsertSorted(s[0], SortBy(s[1..], k, desc), k, desc);
      Insert(s[0], SortBy(s[1..], k, desc), k, desc)
  }

  /** Sorting keeps exactly the elements of the input. */
  lemma SortByMembers<T(!new)>(s: seq<T>, k: T -> int, desc: bool, x: T)
    ensures x in SortBy(s, k, desc) <==> x in s
  {
    assert x in SortBy(s, k, desc) <==> x in multiset(SortBy(s, k, desc));
  }

  /**
   * In a sorted list, an element that is not among the first `n` is never
   * strictly ahead of any element that is: a prefix holds the earliest ones.
   */
  lemma {:induction false} SortedPrefixIsFirst<T(!new)>(s: seq<T>, k: T -> int, desc: bool, n: nat, x: T, y: T)
    requires SortedBy(s, k, desc)
    requires n <= |s|
    requires x in s[..n]
    requires y in s && y !in s[..n]
    ensures Before(k, desc, x, y)
  {
    var i :| 0 <= i < n && s[..n][i] == x;
    assert s == s[..n] + s[n..];
    assert y in s[n..];
    var j :| 0 <= j < |s| - n && s[n..][j] == y;
    assert s[i] == x && s[n + j] == y;
  }
}
