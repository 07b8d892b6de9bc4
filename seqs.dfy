/**
 * The array methods the components build their views from: `filter`, `find`,
 * `some`, `slice`, `reduce` and a stable `sort` whose comparator orders by a
 * string key (date and time keys compare like the instants they denote when
 * they are written in the fixed-width `YYYY-MM-DD` / `HH:MM` form).
 */
module Seqs {
  import opened Wrappers
  import opened Text

  // ---------------------------------------------------------------------------
  // filter

  /** `s.filter(p)` */
  function Filter<T>(s: seq<T>, p: T -> bool): (r: seq<T>)
    ensures |r| <= |s|
    ensures forall x :: x in r ==> x in s && p(x)
  {
    if s == [] then [] else (if p(s[0]) then [s[0]] else []) + Filter(s[1..], p)
  }

  /** Nothing that passes the test is dropped. */
  lemma {:induction false} FilterKeepsAll<T>(s: seq<T>, p: T -> bool, x: T)
    requires x in s && p(x)
    ensures x in Filter(s, p)
  {
    if s[0] != x {
      FilterKeepsAll(s[1..], p, x);
    }
  }

  /** What `filter` keeps is exactly what is in the list and passes the test. */
  lemma FilterMembership<T>(s: seq<T>, p: T -> bool)
    ensures forall x :: x in Filter(s, p) <==> x in s && p(x)
  {
    forall x | x in s && p(x) ensures x in Filter(s, p) {
      FilterKeepsAll(s, p, x);
    }
  }

  /** Filtering distributes over concatenation, so it keeps the relative order. */
  lemma {:induction false} FilterAppend<T>(a: seq<T>, b: seq<T>, p: T -> bool)
    ensures Filter(a + b, p) == Filter(a, p) + Filter(b, p)
  {
    if a == [] {
      assert a + b == b;
    } else {
      assert (a + b)[1..] == a[1..] + b;
      FilterAppend(a[1..], b, p);
    }
  }

  /** Filtering with a test every element passes changes nothing. */
  lemma {:induction false} FilterAllPass<T>(s: seq<T>, p: T -> bool)
    requires forall i :: 0 <= i < |s| ==> p(s[i])
    ensures Filter(s, p) == s
  {
    if s != [] {
      FilterAllPass(s[1..], p);
    }
  }

  /** Each element keeps exactly the number of copies it had, if it passes, and none otherwise. */
  lemma {:induction false} FilterMultiset<T>(s: seq<T>, p: T -> bool, x: T)
    ensures multiset(Filter(s, p))[x] == if p(x) then multiset(s)[x] else 0
  {
    if s != [] {
      FilterMultiset(s[1..], p, x);
      assert s == [s[0]] + s[1..];
    }
  }

  /** A sub-sequence taken by filtering keeps any order the input had. */
  lemma {:induction false} FilterSorted<T>(s: seq<T>, p: T -> bool, key: T -> string, desc: bool)
    requires SortedBy(s, key, desc)
    ensures SortedBy(Filter(s, p), key, desc)
  {
    if s != [] {
      FilterSorted(s[1..], p, key, desc);
      var rest := Filter(s[1..], p);
      if p(s[0]) {
        forall j | 0 < j < |[s[0]] + rest|
          ensures KeyLe(key, desc, ([s[0]] + rest)[0], ([s[0]] + rest)[j])
        {
          assert rest[j - 1] in s[1..];
        }
      }
    }
  }

  // ---------------------------------------------------------------------------
  // find, some, slice, reduce

  /** Index of the first element that passes `p`, or `|s|` when none does. */
  function FindIndex<T>(s: seq<T>, p: T -> bool): (i: nat)
    ensures i <= |s|
    ensures forall k :: 0 <= k < i ==> !p(s[k])
    ensures i < |s| ==> p(s[i])
  {
    if s == [] then 0 else if p(s[0]) then 0 else 1 + FindIndex(s[1..], p)
  }

  /** `s.find(p)`: the first element that passes, `None` for `undefined`. */
  function Find<T>(s: seq<T>, p: T -> bool): (r: Option<T>)
    ensures r.Some? <==> exists i :: 0 <= i < |s| && p(s[i])
    ensures r.Some? ==> r.value in s && p(r.value)
    ensures r.Some? ==> exists i :: 0 <= i < |s| && s[i] == r.value && forall k :: 0 <= k < i ==> !p(s[k])
  {
    var i := FindIndex(s, p);
    if i < |s| then Some(s[i]) else None
  }

  /** `s.some(p)` */
  predicate Exists<T>(s: seq<T>, p: T -> bool) {
    exists i :: 0 <= i < |s| && p(s[i])
  }

  /** `s.slice(0, n)` */
  function Take<T>(s: seq<T>, n: nat): (r: seq<T>)
    ensures |r| <= n && r <= s
    ensures multiset(r) <= multiset(s)
    ensures |s| <= n ==> r == s
  {
    if |s| <= n then s
    else
      assert s == s[..n] + s[n..];
      s[..n]
  }

  /** The first `n` of a sorted sequence are sorted and come before every element left out. */
  lemma TakeOfSorted<T>(s: seq<T>, n: nat, key: T -> string, desc: bool)
    requires SortedBy(s, key, desc)
    ensures var r := Take(s, n);
      SortedBy(r, key, desc)
      && |r| == (if |s| < n then |s| else n)
      && (forall x :: x in r ==> x in s)
      && forall i, j :: 0 <= i < |r| <= j < |s| ==> KeyLe(key, desc, r[i], s[j])
  {
    var r := Take(s, n);
    assert forall i :: 0 <= i < |r| ==> r[i] == s[i];
  }

  /** `s.reduce((sum, x) => sum + f(x), 0)` */
  function SumOf<T>(s: seq<T>, f: T -> real): real {
    if s == [] then 0.0 else f(s[0]) + SumOf(s[1..], f)
  }

  /** Splitting a list by a test and its negation splits its total into the two parts' totals. */
  lemma {:induction false} SumOfPartition<T>(s: seq<T>, f: T -> real, p: T -> bool, q: T -> bool)
    requires forall x :: q(x) == !p(x)
    ensures SumOf(Filter(s, p), f) + SumOf(Filter(s, q), f) == SumOf(s, f)
  {
    if s != [] {
      SumOfPartition(s[1..], f, p, q);
      SumOfAppend(if p(s[0]) then [s[0]] else [], Filter(s[1..], p), f);
      SumOfAppend(if q(s[0]) then [s[0]] else [], Filter(s[1..], q), f);
    }
  }

  lemma {:induction false} SumOfAppend<T>(a: seq<T>, b: seq<T>, f: T -> real)
    ensures SumOf(a + b, f) == SumOf(a, f) + SumOf(b, f)
  {
    if a == [] {
      assert a + b == b;
    } else {
      assert (a + b)[1..] == a[1..] + b;
      SumOfAppend(a[1..], b, f);
    }
  }

  /** A sum of non-negative terms is non-negative. */
  lemma {:induction false} SumOfNonNegative<T>(s: seq<T>, f: T -> real)
    requires forall i :: 0 <= i < |s| ==> f(s[i]) >= 0.0
    ensures SumOf(s, f) >= 0.0
  {
    if s != [] {
      SumOfNonNegative(s[1..], f);
    }
  }

  // ---------------------------------------------------------------------------
  // stable sort by a string key

  /** `x` may come before `y`: ascending, or descending when `desc`, by `key`. */
  predicate KeyLe<T>(key: T -> string, desc: bool, x: T, y: T) {
    if desc then LexLe(key(y), key(x)) else LexLe(key(x), key(y))
  }

  predicate SortedBy<T>(s: seq<T>, key: T -> string, desc: bool) {
    forall i, j :: 0 <= i < j < |s| ==> KeyLe(key, desc, s[i], s[j])
  }

  lemma KeyLeTransitive<T>(key: T -> string, desc: bool, x: T, y: T, z: T)
    requires KeyLe(key, desc, x, y) && KeyLe(key, desc, y, z)
    ensures KeyLe(key, desc, x, z)
  {
    if desc {
      LexLeTransitive(key(z), key(y), key(x));
    } else {
      LexLeTransitive(key(x), key(y), key(z));
    }
  }

  lemma KeyLeTotal<T>(key: T -> string, desc: bool, x: T, y: T)
    ensures KeyLe(key, desc, x, y) || KeyLe(key, desc, y, x)
  {
    LexLeTotal(key(x), key(y));
  }

  /** Puts `x` in front of the first element it may precede (so before equal keys). */
  function Insert<T>(x: T, s: seq<T>, key: T -> string, desc: bool): seq<T> {
    if s == [] || KeyLe(key, desc, x, s[0]) then [x] + s
    else [s[0]] + Insert(x, s[1..], key, desc)
  }

  /**
   * `[...s].sort((a, b) => compare(key(a), key(b)))`, negated when `desc`:
   * a stable insertion sort (elements with equal keys keep their input order).
   */
  function SortBy<T>(s: seq<T>, key: T -> string, desc: bool): seq<T> {
    if s == [] then [] else Insert(s[0], SortBy(s[1..], key, desc), key, desc)
  }

  lemma {:induction false} InsertPermutes<T>(x: T, s: seq<T>, key: T -> string, desc: bool)
    ensures multiset(Insert(x, s, key, desc)) == multiset(s) + multiset{x}
  {
    if !(s == [] || KeyLe(key, desc, x, s[0])) {
      InsertPermutes(x, s[1..], key, desc);
      assert s == [s[0]] + s[1..];
    }
  }

  /** A head that may precede every element of a sorted tail gives a sorted list. */
  lemma SortedCons<T>(y: T, t: seq<T>, key: T -> string, desc: bool)
    requires SortedBy(t, key, desc)
    requires forall j :: 0 <= j < |t| ==> KeyLe(key, desc, y, t[j])
    ensures SortedBy([y] + t, key, desc)
  {
    var r := [y] + t;
    forall i, j | 0 <= i < j < |r| ensures KeyLe(key, desc, r[i], r[j]) {
      if i == 0 {
        assert r[j] == t[j - 1];
      } else {
        assert r[i] == t[i - 1] && r[j] == t[j - 1];
      }
    }
  }

  lemma {:induction false} InsertSorted<T>(x: T, s: seq<T>, key: T -> string, desc: bool)
    requires SortedBy(s, key, desc)
    ensures SortedBy(Insert(x, s, key, desc), key, desc)
  {
    if s == [] || KeyLe(key, desc, x, s[0]) {
      forall j | 0 <= j < |s| ensures KeyLe(key, desc, x, s[j]) {
        if j > 0 {
          KeyLeTransitive(key, desc, x, s[0], s[j]);
        }
      }
      SortedCons(x, s, key, desc);
    } else {
      KeyLeTotal(key, desc, x, s[0]);
      var t := Insert(x, s[1..], key, desc);
      InsertSorted(x, s[1..], key, desc);
      InsertPermutes(x, s[1..], key, desc);
      forall j | 0 <= j < |t| ensures KeyLe(key, desc, s[0], t[j]) {
        assert t[j] in multiset(t);
        if t[j] != x {
          assert t[j] in multiset(s[1..]);
          var k :| 0 <= k < |s[1..]| && s[1..][k] == t[j];
          assert s[k + 1] == t[j];
        }
      }
      SortedCons(s[0], t, key, desc);
    }
  }

  /** Sorting orders the list by its key and keeps every element with its multiplicity. */
  lemma {:induction false} SortBySortsAndPermutes<T>(s: seq<T>, key: T -> string, desc: bool)
    ensures SortedBy(SortBy(s, key, desc), key, desc)
    ensures multiset(SortBy(s, key, desc)) == multiset(s)
  {
    if s != [] {
      SortBySortsAndPermutes(s[1..], key, desc);
      InsertSorted(s[0], SortBy(s[1..], key, desc), key, desc);
      InsertPermutes(s[0], SortBy(s[1..], key, desc), key, desc);
      assert s == [s[0]] + s[1..];
    }
  }
}
