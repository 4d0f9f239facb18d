/**
 * The array operations the catalogue code chains together: `filter`, `find`,
 * `Array.from(new Set(xs))` (first-occurrence dedup) and a stable `sort` by a numeric key.
 */
module Seqs {
  import opened Wrappers

  /** `s.filter(p)`. */
  function Filter<T(!new)>(s: seq<T>, p: T -> bool): (r: seq<T>)
    ensures |r| <= |s|
    ensures forall x :: x in r <==> x in s && p(x)
    ensures forall i | 0 <= i < |r| :: p(r[i])
    decreases |s|
  {
    if |s| == 0 then []
    else (if p(s[0]) then [s[0]] else []) + Filter(s[1..], p)
  }

  /** Filtering distributes over concatenation, so the survivors keep their input order. */
  lemma {:induction false} FilterAppend<T(!new)>(a: seq<T>, b: seq<T>, p: T -> bool)
    ensures Filter(a + b, p) == Filter(a, p) + Filter(b, p)
    decreases |a|
  {
    if |a| > 0 {
      assert (a + b)[0] == a[0] && (a + b)[1..] == a[1..] + b;
      FilterAppend(a[1..], b, p);
      assert Filter(a + b, p) == (if p(a[0]) then [a[0]] else []) + (Filter(a[1..], p) + Filter(b, p));
    } else {
      assert a + b == b;
    }
  }

  /** A filter that every element passes keeps the whole sequence. */
  lemma {:induction false} FilterAll<T(!new)>(s: seq<T>, p: T -> bool)
    requires forall i | 0 <= i < |s| :: p(s[i])
    ensures Filter(s, p) == s
    decreases |s|
  {
    if |s| > 0 {
      FilterAll(s[1..], p);
      assert s == [s[0]] + s[1..];
    }
  }

  /** Predicates that agree on the elements filter alike. */
  lemma {:induction false} FilterExt<T(!new)>(s: seq<T>, p: T -> bool, q: T -> bool)
    requires forall i | 0 <= i < |s| :: p(s[i]) == q(s[i])
    ensures Filter(s, p) == Filter(s, q)
    decreases |s|
  {
    if |s| > 0 {
      FilterExt(s[1..], p, q);
    }
  }

  /** Filtering twice is filtering once by the conjunction: successive `filter` calls compose. */
  lemma {:induction false} FilterConj<T(!new)>(s: seq<T>, p: T -> bool, q: T -> bool, r: T -> bool)
    requires forall i | 0 <= i < |s| :: r(s[i]) == (p(s[i]) && q(s[i]))
    ensures Filter(Filter(s, p), q) == Filter(s, r)
    decreases |s|
  {
    if |s| > 0 {
      FilterConj(s[1..], p, q, r);
      var rest := Filter(s[1..], p);
      if p(s[0]) {
        assert Filter(s, p) == [s[0]] + rest;
        assert ([s[0]] + rest)[1..] == rest;
      } else {
        assert Filter(s, p) == rest;
      }
    }
  }

  /** The elements of `s`, as a set. */
  function Elems<T(!new)>(s: seq<T>): set<T> {
    set x | x in s
  }

  predicate NoDup<T(==,!new)>(s: seq<T>) {
    forall i, j | 0 <= i < j < |s| :: s[i] != s[j]
  }

  /** An element listed at two positions occurs at least twice in the multiset. */
  lemma TwoCopies<T>(s: seq<T>, i: nat, j: nat)
    requires i < j < |s| && s[i] == s[j]
    ensures multiset(s)[s[i]] >= 2
  {
    assert s == s[..i] + [s[i]] + s[i + 1..j] + [s[j]] + s[j + 1..];
  }

  /** A duplicate-free sequence holds each element at most once. */
  lemma {:induction false} NoDupCount<T(!new)>(s: seq<T>, x: T)
    requires NoDup(s)
    ensures multiset(s)[x] <= 1
    decreases |s|
  {
    if |s| > 0 {
      NoDupCount(s[1..], x);
      assert s == [s[0]] + s[1..];
      if x == s[0] {
        assert x !in s[1..];
      }
    }
  }

  /** A permutation of a duplicate-free sequence is duplicate-free. */
  lemma NoDupPermutation<T(!new)>(a: seq<T>, b: seq<T>)
    requires multiset(a) == multiset(b) && NoDup(b)
    ensures NoDup(a)
  {
    forall i, j | 0 <= i < j < |a| ensures a[i] != a[j] {
      if a[i] == a[j] {
        TwoCopies(a, i, j);
        NoDupCount(b, a[i]);
      }
    }
  }

  /** The elements of `s` that are not in `seen`, each once, in order of first occurrence. */
  function DedupFrom<T(==,!new)>(s: seq<T>, seen: set<T>): (r: seq<T>)
    ensures NoDup(r)
    ensures forall x :: x in r <==> x in s && x !in seen
    decreases |s|
  {
    if |s| == 0 then []
    else if s[0] in seen then DedupFrom(s[1..], seen)
    else
      var rest := DedupFrom(s[1..], seen + {s[0]});
      assert forall i | 0 <= i < |rest| :: rest[i] != s[0];
      [s[0]] + rest
  }

  /** `Array.from(new Set(s))`: one copy of each element, in order of first occurrence. */
  function Dedup<T(==,!new)>(s: seq<T>): (r: seq<T>)
    ensures NoDup(r)
    ensures forall x :: x in r <==> x in s
  {
    DedupFrom(s, {})
  }

  /** Deduplicating a concatenation deduplicates the second part against what the first contributed. */
  lemma {:induction false} DedupFromAppend<T(!new)>(a: seq<T>, b: seq<T>, seen: set<T>)
    ensures DedupFrom(a + b, seen) == DedupFrom(a, seen) + DedupFrom(b, seen + Elems(a))
    decreases |a|
  {
    if |a| == 0 {
      assert a + b == b;
      assert Elems(a) == {};
      assert seen + Elems(a) == seen;
    } else {
      assert (a + b)[1..] == a[1..] + b;
      if a[0] in seen {
        DedupFromAppend(a[1..], b, seen);
        assert seen + Elems(a[1..]) == seen + Elems(a);
      } else {
        DedupFromAppend(a[1..], b, seen + {a[0]});
        assert seen + {a[0]} + Elems(a[1..]) == seen + Elems(a);
      }
    }
  }

  /** A duplicate-free sequence whose elements avoid `seen` is left as it is. */
  lemma {:induction false} DedupFromNoDup<T(!new)>(s: seq<T>, seen: set<T>)
    requires NoDup(s)
    requires forall i | 0 <= i < |s| :: s[i] !in seen
    ensures DedupFrom(s, seen) == s
    decreases |s|
  {
    if |s| > 0 {
      DedupFromNoDup(s[1..], seen + {s[0]});
      assert s == [s[0]] + s[1..];
    }
  }

  /**
   * Deduplicating `existing + added` where `existing` has no duplicates keeps `existing` as the
   * prefix and appends the new elements of `added`, each once, in order of first occurrence.
   */
  lemma DedupExtends<T(!new)>(existing: seq<T>, added: seq<T>)
    requires NoDup(existing)
    ensures Dedup(existing + added) == existing + DedupFrom(added, Elems(existing))
  {
    DedupFromAppend(existing, added, {});
    DedupFromNoDup(existing, {});
    assert {} + Elems(existing) == Elems(existing);
  }

  /** The index of the first element satisfying `p` (`findIndex`), or `None`. */
  function FirstIndex<T(!new)>(s: seq<T>, p: T -> bool): (r: Option<nat>)
    ensures r.Some? ==> r.value < |s| && p(s[r.value]) && forall j | 0 <= j < r.value :: !p(s[j])
    ensures r.None? <==> forall i | 0 <= i < |s| :: !p(s[i])
    decreases |s|
  {
    if |s| == 0 then None
    else if p(s[0]) then Some(0)
    else
      match FirstIndex(s[1..], p)
      case None => None
      case Some(i) => Some(i + 1)
  }

  /** The first survivor of a filter is the element at the first index satisfying `p`. */
  lemma {:induction false} FilterHead<T(!new)>(s: seq<T>, p: T -> bool)
    requires |Filter(s, p)| > 0
    ensures FirstIndex(s, p).Some? && Filter(s, p)[0] == s[FirstIndex(s, p).value]
    decreases |s|
  {
    if !p(s[0]) {
      assert Filter(s, p) == Filter(s[1..], p);
      FilterHead(s[1..], p);
      assert s[1..][FirstIndex(s[1..], p).value] == s[FirstIndex(s[1..], p).value + 1];
    }
  }

  /** `s.find(p)`: the first element satisfying `p`, or `undefined`. */
  function Find<T(!new)>(s: seq<T>, p: T -> bool): (r: Option<T>)
    ensures r.None? <==> forall i | 0 <= i < |s| :: !p(s[i])
    ensures r.Some? ==> r.value in s && p(r.value)
  {
    match FirstIndex(s, p)
    case None => None
    case Some(i) => Some(s[i])
  }

  /** Appending elements does not change a `find` that already succeeds on the prefix. */
  lemma {:induction false} FindAppend<T(!new)>(a: seq<T>, b: seq<T>, p: T -> bool)
    requires Find(a, p).Some?
    ensures Find(a + b, p) == Find(a, p)
  {
    var i := FirstIndex(a, p).value;
    FirstIndexAppend(a, b, p);
    assert (a + b)[i] == a[i];
  }

  lemma {:induction false} FirstIndexAppend<T(!new)>(a: seq<T>, b: seq<T>, p: T -> bool)
    requires FirstIndex(a, p).Some?
    ensures FirstIndex(a + b, p) == FirstIndex(a, p)
    decreases |a|
  {
    if !p(a[0]) {
      assert (a + b)[1..] == a[1..] + b;
      FirstIndexAppend(a[1..], b, p);
    }
  }

  /** `find` passes over a prefix in which nothing matches. */
  lemma {:induction false} FindSkipsUnmatched<T(!new)>(a: seq<T>, b: seq<T>, p: T -> bool)
    requires forall i | 0 <= i < |a| :: !p(a[i])
    ensures Find(a + b, p) == Find(b, p)
    decreases |a|
  {
    if |a| == 0 {
      assert a + b == b;
    } else {
      var s := a + b;
      assert s[0] == a[0] && s[1..] == a[1..] + b;
      FindSkipsUnmatched(a[1..], b, p);
      match FirstIndex(s[1..], p)
      case None =>
      case Some(i) => assert s[i + 1] == s[1..][i];
    }
  }

  /** `find` on a concatenation: the first part's match if it has one, else the second part's. */
  lemma FindConcat<T(!new)>(a: seq<T>, b: seq<T>, p: T -> bool)
    ensures Find(a + b, p) == if Find(a, p).Some? then Find(a, p) else Find(b, p)
  {
    if Find(a, p).Some? {
      FindAppend(a, b, p);
    } else {
      FindSkipsUnmatched(a, b, p);
    }
  }

  // ---- stable sort by a numeric key ----

  /** `x` may precede `y`: ascending or descending comparison of their keys. */
  predicate InOrder(x: int, y: int, ascending: bool) {
    if ascending then x <= y else x >= y
  }

  predicate SortedBy<T(!new)>(s: seq<T>, key: T -> int, ascending: bool) {
    forall i, j | 0 <= i < j < |s| :: InOrder(key(s[i]), key(s[j]), ascending)
  }

  /** An element ordered before every element of a sorted list may be put in front of it. */
  lemma ConsSorted<T(!new)>(y: T, s: seq<T>, key: T -> int, ascending: bool)
    requires SortedBy(s, key, ascending)
    requires forall k | 0 <= k < |s| :: InOrder(key(y), key(s[k]), ascending)
    ensures SortedBy([y] + s, key, ascending)
  {
    var r := [y] + s;
    forall i, j | 0 <= i < j < |r| ensures InOrder(key(r[i]), key(r[j]), ascending) {
      assert r[j] == s[j - 1];
      if i > 0 { assert r[i] == s[i - 1]; }
    }
  }

  /** What precedes `x` and every element of `s` precedes every element of a rearrangement of them. */
  lemma PrecedesAll<T(!new)>(y: T, x: T, s: seq<T>, r: seq<T>, key: T -> int, ascending: bool)
    requires multiset(r) == multiset(s) + multiset{x}
    requires InOrder(key(y), key(x), ascending)
    requires forall k | 0 <= k < |s| :: InOrder(key(y), key(s[k]), ascending)
    ensures forall k | 0 <= k < |r| :: InOrder(key(y), key(r[k]), ascending)
  {
    forall k | 0 <= k < |r| ensures InOrder(key(y), key(r[k]), ascending) {
      assert r[k] in multiset(r);
      if r[k] != x {
        assert r[k] in multiset(s);
        var j :| 0 <= j < |s| && s[j] == r[k];
      }
    }
  }

  /** Inserts `x` before the first element it may precede; `s` is sorted. */
  function InsertBy<T(!new)>(x: T, s: seq<T>, key: T -> int, ascending: bool): (r: seq<T>)
    requires SortedBy(s, key, ascending)
    ensures multiset(r) == multiset(s) + multiset{x}
    ensures SortedBy(r, key, ascending)
    decreases |s|
  {
    if |s| == 0 then [x]
    else if InOrder(key(x), key(s[0]), ascending) then
      ConsSorted(x, s, key, ascending);
      [x] + s
    else
      assert SortedBy(s[1..], key, ascending);
      var rest := InsertBy(x, s[1..], key, ascending);
      PrecedesAll(s[0], x, s[1..], rest, key, ascending);
      ConsSorted(s[0], rest, key, ascending);
      assert s == [s[0]] + s[1..];
      [s[0]] + rest
  }

  /** `[...s].sort((a, b) => ascending ? key(a) - key(b) : key(b) - key(a))`. */
  function SortBy<T(!new)>(s: seq<T>, key: T -> int, ascending: bool): (r: seq<T>)
    ensures multiset(r) == multiset(s)
    ensures SortedBy(r, key, ascending)
    decreases |s|
  {
    if |s| == 0 then []
    else
      assert s == [s[0]] + s[1..];
      InsertBy(s[0], SortBy(s[1..], key, ascending), key, ascending)
  }

  /** `key` takes the value `k`. */
  function KeyIs<T>(key: T -> int, k: int): T -> bool {
    (x: T) => key(x) == k
  }

  /** Filtering a list with a head: the head if it passes, then the filtered tail. */
  lemma FilterCons<T(!new)>(x: T, s: seq<T>, p: T -> bool)
    ensures Filter([x] + s, p) == (if p(x) then [x] else []) + Filter(s, p)
  {
    assert ([x] + s)[0] == x && ([x] + s)[1..] == s;
  }

  /** Inserting keeps the order among equal keys: `x` lands before the elements whose key it ties. */
  lemma {:induction false} InsertByKeepsTies<T(!new)>(x: T, s: seq<T>, key: T -> int, ascending: bool, k: int)
    requires SortedBy(s, key, ascending)
    ensures Filter(InsertBy(x, s, key, ascending), KeyIs(key, k)) ==
      (if key(x) == k then [x] else []) + Filter(s, KeyIs(key, k))
    decreases |s|
  {
    var p := KeyIs(key, k);
    if |s| == 0 {
      assert InsertBy(x, s, key, ascending) == [x] + s;
      FilterCons(x, s, p);
    } else if InOrder(key(x), key(s[0]), ascending) {
      assert InsertBy(x, s, key, ascending) == [x] + s;
      FilterCons(x, s, p);
    } else {
      var t := s[1..];
      assert SortedBy(t, key, ascending);
      var rest := InsertBy(x, t, key, ascending);
      assert InsertBy(x, s, key, ascending) == [s[0]] + rest;
      InsertByKeepsTies(x, t, key, ascending, k);
      assert !(p(x) && p(s[0]));
      TieSwap(x, s[0], rest, t, p);
      assert [s[0]] + t == s;
    }
  }

  /** Moving `x` past a head `y` that does not share its outcome under `p` leaves the filtered list alone. */
  lemma TieSwap<T(!new)>(x: T, y: T, rest: seq<T>, t: seq<T>, p: T -> bool)
    requires !(p(x) && p(y))
    requires Filter(rest, p) == (if p(x) then [x] else []) + Filter(t, p)
    ensures Filter([y] + rest, p) == (if p(x) then [x] else []) + Filter([y] + t, p)
  {
    FilterCons(y, rest, p);
    FilterCons(y, t, p);
    PrefixSwap(if p(x) then [x] else [], if p(y) then [y] else [], Filter(rest, p), Filter(t, p));
  }

  /** Two prefixes, one of them empty, commute around a shared tail. */
  lemma PrefixSwap<T>(hx: seq<T>, hy: seq<T>, fr: seq<T>, ft: seq<T>)
    requires hx == [] || hy == []
    requires fr == hx + ft
    ensures hy + fr == hx + (hy + ft)
  {
  }

  /** The sort is stable: the elements with any one key keep their input order. */
  lemma {:induction false} SortByStable<T(!new)>(s: seq<T>, key: T -> int, ascending: bool, k: int)
    ensures Filter(SortBy(s, key, ascending), KeyIs(key, k)) == Filter(s, KeyIs(key, k))
    decreases |s|
  {
    if |s| > 0 {
      SortByStable(s[1..], key, ascending, k);
      InsertByKeepsTies(s[0], SortBy(s[1..], key, ascending), key, ascending, k);
    }
  }
}
