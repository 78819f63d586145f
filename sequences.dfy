/** Swift's `filter`, `sorted(by:)` and `prefix(_:)` on arrays, as functions on sequences. */
module Sequences {

  /** `s.filter(p)`: the elements satisfying `p`, in their original order. */
  function Filter<T(!new)>(s: seq<T>, p: T -> bool): (r: seq<T>)
    ensures |r| <= |s|
    ensures forall x :: x in r <==> x in s && p(x)
  {
    if s == [] then []
    else
      assert s == [s[0]] + s[1..];
      (if p(s[0]) then [s[0]] else []) + Filter(s[1..], p)
  }

  /** Each element occurs in the filtered sequence as often as in `s` when it satisfies `p`, else never. */
  lemma {:induction false} FilterCount<T(!new)>(s: seq<T>, p: T -> bool, x: T)
    ensures multiset(Filter(s, p))[x] == if p(x) then multiset(s)[x] else 0
  {
    if s != [] {
      assert s == [s[0]] + s[1..];
      FilterCount(s[1..], p, x);
    }
  }

  /** Filtering commutes with concatenation, which is what keeping the order means. */
  lemma {:induction false} FilterConcat<T(!new)>(a: seq<T>, b: seq<T>, p: T -> bool)
    ensures Filter(a + b, p) == Filter(a, p) + Filter(b, p)
  {
    if a != [] {
      var head := if p(a[0]) then [a[0]] else [];
      calc {
        Filter(a + b, p);
        { assert (a + b)[0] == a[0] && (a + b)[1..] == a[1..] + b; }
        head + Filter(a[1..] + b, p);
        { FilterConcat(a[1..], b, p); }
        head + (Filter(a[1..], p) + Filter(b, p));
        (head + Filter(a[1..], p)) + Filter(b, p);
      }
    } else {
      assert a + b == b;
    }
  }

  predicate SortedBy<T>(s: seq<T>, key: T -> int) {
    forall i, j :: 0 <= i < j < |s| ==> key(s[i]) <= key(s[j])
  }

  /** Inserts `x` in front of the first element whose key is not smaller. */
  function InsertBy<T>(x: T, s: seq<T>, key: T -> int): (r: seq<T>)
    requires SortedBy(s, key)
    ensures SortedBy(r, key)
    ensures multiset(r) == multiset(s) + multiset{x}
    ensures |r| == |s| + 1 && (r[0] == x || (s != [] && r[0] == s[0]))
  {
    if s == [] || key(x) <= key(s[0]) then [x] + s
    else
      var t := InsertBy(x, s[1..], key);
      assert s == [s[0]] + s[1..];
      assert key(s[0]) <= key(t[0]);
      [s[0]] + t
  }

  /**
   * `s.sorted { key($0) < key($1) }`: a non-decreasing rearrangement of `s`.
   * Swift's sort is stable, and so is this one: elements with equal keys keep
   * their input order (`SortByStable`).
   */
  function SortBy<T>(s: seq<T>, key: T -> int): (r: seq<T>)
    ensures SortedBy(r, key)
    ensures multiset(r) == multiset(s)
  {
    if s == [] then []
    else
      assert s == [s[0]] + s[1..];
      InsertBy(s[0], SortBy(s[1..], key), key)
  }

  /** Filtering a sequence with a known first element. */
  lemma FilterCons<T(!new)>(x: T, t: seq<T>, p: T -> bool)
    ensures Filter([x] + t, p) == (if p(x) then [x] else []) + Filter(t, p)
  {
    assert ([x] + t)[0] == x && ([x] + t)[1..] == t;
  }

  /** Inserting into a sorted sequence puts `x` ahead of the elements whose key equals its own. */
  lemma {:induction false} InsertByFilter<T(!new)>(x: T, t: seq<T>, key: T -> int, k: int, p: T -> bool)
    requires SortedBy(t, key)
    requires forall y :: p(y) <==> key(y) == k
    ensures Filter(InsertBy(x, t, key), p) == (if p(x) then [x] else []) + Filter(t, p)
  {
    if t == [] || key(x) <= key(t[0]) {
      FilterCons(x, t, p);
    } else {
      var t1 := t[1..];
      InsertByFilter(x, t1, key, k, p);
      InsertByPasses(x, t, key);
      FilterCons(t[0], InsertBy(x, t1, key), p);
      assert t == [t[0]] + t1;
      FilterCons(t[0], t1, p);
      assert !(p(x) && p(t[0]));
      SwapHeads(if p(x) then [x] else [], if p(t[0]) then [t[0]] else [], Filter(t1, p));
    }
  }

  /** `x` passes a first element with a smaller key. */
  lemma InsertByPasses<T>(x: T, t: seq<T>, key: T -> int)
    requires SortedBy(t, key) && t != [] && key(x) > key(t[0])
    ensures InsertBy(x, t, key) == [t[0]] + InsertBy(x, t[1..], key)
  {
  }

  /** Two heads of which at most one is non-empty can be swapped. */
  lemma SwapHeads<T>(a: seq<T>, b: seq<T>, f: seq<T>)
    requires a == [] || b == []
    ensures b + (a + f) == a + (b + f)
  {
    if a == [] {
      assert a + f == f && a + (b + f) == b + f;
    } else {
      assert b + (a + f) == a + f && b + f == f;
    }
  }

  /** Sorting keeps the input order of the elements with any one key: the sort is stable. */
  lemma {:induction false} SortByStable<T(!new)>(s: seq<T>, key: T -> int, k: int, p: T -> bool)
    requires forall y :: p(y) <==> key(y) == k
    ensures Filter(SortBy(s, key), p) == Filter(s, p)
  {
    if s != [] {
      SortByStable(s[1..], key, k, p);
      InsertByFilter(s[0], SortBy(s[1..], key), key, k, p);
    }
  }

  /** `Array(s.prefix(n))`. */
  function Prefix<T>(s: seq<T>, n: nat): (r: seq<T>)
    ensures |r| == if n < |s| then n else |s|
    ensures forall i :: 0 <= i < |r| ==> r[i] == s[i]
  {
    if n < |s| then s[..n] else s
  }
}
