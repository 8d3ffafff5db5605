/** Sequence helpers shared by the rules engine: Python's `list.remove`,
    `sorted`, `sorted(set(...))` on integer codes and on tile names. */
module Seqs {

  datatype Option<T> = None | Some(value: T)

  /** `s.remove(x)`: drop the first occurrence of `x`. */
  function RemoveFirst<T(==)>(s: seq<T>, x: T): (r: seq<T>)
    requires x in s
    ensures |r| == |s| - 1
    ensures multiset(r) == multiset(s) - multiset{x}
  {
    assert s == [s[0]] + s[1..];
    if s[0] == x then s[1..]
    else [s[0]] + RemoveFirst(s[1..], x)
  }

  /** `s.remove(x)` for each `x` of `xs` in turn. */
  function RemoveEach<T(==)>(s: seq<T>, xs: seq<T>): (r: seq<T>)
    requires multiset(xs) <= multiset(s)
    ensures |r| == |s| - |xs|
    ensures multiset(r) == multiset(s) - multiset(xs)
    decreases |xs|
  {
    if xs == [] then s
    else
      assert xs == [xs[0]] + xs[1..];
      assert xs[0] in multiset(s);
      RemoveEach(RemoveFirst(s, xs[0]), xs[1..])
  }

  /** Putting back what was taken out restores a multiset. */
  lemma AddBack<T>(a: multiset<T>, b: multiset<T>)
    requires a <= b
    ensures a + (b - a) == b
  {
    forall x ensures (a + (b - a))[x] == b[x] {
    }
  }

  lemma TakeOut<T>(a: multiset<T>, b: multiset<T>)
    ensures (a + b) - a == b
  {
    forall x ensures ((a + b) - a)[x] == b[x] {
    }
  }

  /** The blocks `f(x)` of the elements of `xs`, one after another. */
  function FlatMap<A, B>(f: A -> seq<B>, xs: seq<A>): seq<B> {
    if xs == [] then [] else FlatMap(f, xs[..|xs| - 1]) + f(xs[|xs| - 1])
  }

  lemma FlatMapSnoc<A, B>(f: A -> seq<B>, xs: seq<A>, k: int)
    requires 0 <= k < |xs|
    ensures FlatMap(f, xs[..k + 1]) == FlatMap(f, xs[..k]) + f(xs[k])
  {
    assert xs[..k + 1][..k] == xs[..k];
  }

  /** Each element of a `FlatMap` comes from the block of some `xs[k]`. */
  lemma {:induction false} FlatMapMember<A, B>(f: A -> seq<B>, xs: seq<A>, y: B) returns (k: int)
    requires y in FlatMap(f, xs)
    ensures 0 <= k < |xs| && y in f(xs[k])
  {
    var n := |xs|;
    if y in f(xs[n - 1]) {
      k := n - 1;
    } else {
      k := FlatMapMember(f, xs[..n - 1], y);
    }
  }

  lemma {:induction false} FlatMapHas<A, B>(f: A -> seq<B>, xs: seq<A>, k: int, y: B)
    requires 0 <= k < |xs| && y in f(xs[k])
    ensures y in FlatMap(f, xs)
  {
    var n := |xs|;
    if k < n - 1 {
      assert xs[..n - 1][k] == xs[k];
      FlatMapHas(f, xs[..n - 1], k, y);
    }
  }

  /** The elements of `s` that satisfy `p`, in order. */
  function Filter<T(!new)>(p: T -> bool, s: seq<T>): (r: seq<T>)
    ensures forall x :: x in r <==> x in s && p(x)
  {
    if s == [] then []
    else
      var init, last := s[..|s| - 1], s[|s| - 1];
      assert forall x :: x in s <==> x in init || x == last;
      Filter(p, init) + (if p(last) then [last] else [])
  }

  lemma FilterSnoc<T(!new)>(p: T -> bool, s: seq<T>, k: int)
    requires 0 <= k < |s|
    ensures Filter(p, s[..k + 1]) == Filter(p, s[..k]) + (if p(s[k]) then [s[k]] else [])
  {
    assert s[..k + 1][..k] == s[..k];
  }

  /** Filtering keeps any order the list was in. */
  lemma {:induction false} FilterKeepsOrder<T(!new)>(p: T -> bool, s: seq<T>, lt: (T, T) -> bool)
    requires forall i, j :: 0 <= i < j < |s| ==> lt(s[i], s[j])
    ensures forall i, j :: 0 <= i < j < |Filter(p, s)| ==> lt(Filter(p, s)[i], Filter(p, s)[j])
  {
    if s != [] {
      var init, last := s[..|s| - 1], s[|s| - 1];
      FilterKeepsOrder(p, init, lt);
      var a := Filter(p, init);
      var r := Filter(p, s);
      forall i, j | 0 <= i < j < |r| ensures lt(r[i], r[j]) {
        if j >= |a| {
          assert r[j] == last && r[i] == a[i];
          assert a[i] in init;
          var k :| 0 <= k < |init| && init[k] == a[i];
          assert init[k] == s[k];
        } else {
          assert r[i] == a[i] && r[j] == a[j];
        }
      }
    }
  }

  // ---------------------------------------------------------------- integers

  predicate Sorted(s: seq<int>) {
    forall i, j :: 0 <= i < j < |s| ==> s[i] <= s[j]
  }

  predicate StrictlySorted(s: seq<int>) {
    forall i, j :: 0 <= i < j < |s| ==> s[i] < s[j]
  }

  /** Every element of `s` is at least `v`. */
  predicate LowerBound(v: int, s: seq<int>) {
    forall x :: x in s ==> v <= x
  }

  lemma SortedHeadIsLowerBound(s: seq<int>)
    requires Sorted(s) && s != []
    ensures LowerBound(s[0], s)
  {
    forall x | x in s ensures s[0] <= x {
      var k :| 0 <= k < |s| && s[k] == x;
      if k > 0 { assert s[0] <= s[k]; }
    }
  }

  lemma SortedTail(s: seq<int>)
    requires Sorted(s) && s != []
    ensures Sorted(s[1..])
  {
    forall i, j | 0 <= i < j < |s[1..]| ensures s[1..][i] <= s[1..][j] {
      assert s[1..][i] == s[i + 1] && s[1..][j] == s[j + 1];
    }
  }

  lemma PrependSorted(h: int, t: seq<int>)
    requires Sorted(t) && LowerBound(h, t)
    ensures Sorted([h] + t)
  {
    var u := [h] + t;
    forall i, j | 0 <= i < j < |u| ensures u[i] <= u[j] {
      assert u[j] == t[j - 1];
      assert t[j - 1] in t;
      if i > 0 { assert u[i] == t[i - 1]; }
    }
  }

  lemma {:induction false} RemoveFirstSorted(s: seq<int>, x: int)
    requires Sorted(s) && x in s
    ensures Sorted(RemoveFirst(s, x))
  {
    assert s == [s[0]] + s[1..];
    SortedTail(s);
    if s[0] != x {
      RemoveFirstSorted(s[1..], x);
      var t := RemoveFirst(s[1..], x);
      SortedHeadIsLowerBound(s);
      forall y | y in t ensures s[0] <= y {
        assert y in multiset(t);
        assert y in multiset(s[1..]);
        assert y in s;
      }
      PrependSorted(s[0], t);
    }
  }

  lemma {:induction false} RemoveEachSorted(s: seq<int>, xs: seq<int>)
    requires Sorted(s) && multiset(xs) <= multiset(s)
    ensures Sorted(RemoveEach(s, xs))
    decreases |xs|
  {
    if xs != [] {
      assert xs == [xs[0]] + xs[1..];
      assert xs[0] in multiset(s);
      RemoveFirstSorted(s, xs[0]);
      RemoveEachSorted(RemoveFirst(s, xs[0]), xs[1..]);
    }
  }

  /** Insert `x` into a sorted sequence. */
  function Insert(s: seq<int>, x: int): (r: seq<int>)
    requires Sorted(s)
    ensures Sorted(r)
    ensures multiset(r) == multiset(s) + multiset{x}
  {
    if s == [] || x <= s[0] then
      SortedHeadIsLowerBoundOrEmpty(s);
      assert LowerBound(x, s);
      PrependSorted(x, s);
      [x] + s
    else
      assert s == [s[0]] + s[1..];
      SortedTail(s);
      var t := Insert(s[1..], x);
      SortedHeadIsLowerBound(s);
      forall y | y in t ensures s[0] <= y {
        assert y in multiset(t);
        assert y == x || y in s;
      }
      PrependSorted(s[0], t);
      [s[0]] + t
  }

  lemma SortedHeadIsLowerBoundOrEmpty(s: seq<int>)
    requires Sorted(s)
    ensures s != [] ==> LowerBound(s[0], s)
  {
    if s != [] { SortedHeadIsLowerBound(s); }
  }

  /** Python's `sorted` on a list of integers. */
  function Sort(s: seq<int>): (r: seq<int>)
    ensures Sorted(r)
    ensures multiset(r) == multiset(s)
    ensures |r| == |s|
  {
    if s == [] then []
    else
      assert s == s[..|s| - 1] + [s[|s| - 1]];
      var r := Insert(Sort(s[..|s| - 1]), s[|s| - 1]);
      assert |r| == |multiset(r)|;
      r
  }

  /** Two sorted sequences holding the same multiset are equal. */
  lemma {:induction false} SortedUnique(a: seq<int>, b: seq<int>)
    requires Sorted(a) && Sorted(b) && multiset(a) == multiset(b)
    ensures a == b
  {
    if a != [] {
      assert a[0] in multiset(b);
      assert b != [];
      assert b[0] in multiset(a);
      SortedHeadIsLowerBound(a);
      SortedHeadIsLowerBound(b);
      assert a[0] == b[0];
      assert a == [a[0]] + a[1..];
      assert b == [b[0]] + b[1..];
      assert multiset(a[1..]) == multiset(a) - multiset{a[0]};
      assert multiset(b[1..]) == multiset(b) - multiset{b[0]};
      SortedTail(a);
      SortedTail(b);
      SortedUnique(a[1..], b[1..]);
    } else {
      assert |multiset(b)| == 0;
    }
  }

  /** Collapse runs of equal elements of a sorted sequence. */
  function Dedup(s: seq<int>): (r: seq<int>)
    requires Sorted(s)
    ensures StrictlySorted(r)
    ensures forall x :: x in r <==> x in s
    ensures s != [] ==> r != [] && r[0] == s[0]
  {
    if |s| <= 1 then s
    else
      SortedTail(s);
      var t := Dedup(s[1..]);
      if s[0] == s[1] then t
      else
        forall y | y in t ensures s[0] < y {
          SortedHeadIsLowerBound(s[1..]);
        }
        [s[0]] + t
  }

  /** Python's `sorted(list(set(s)))`. */
  function SortedSet(s: seq<int>): (r: seq<int>)
    ensures StrictlySorted(r)
    ensures forall x :: x in r <==> x in s
  {
    forall x ensures x in Sort(s) <==> x in s {
      assert x in Sort(s) <==> x in multiset(Sort(s));
    }
    Dedup(Sort(s))
  }

  // ---------------------------------------------------------------- strings

  /** Python's `<` on strings: lexicographic by code point. */
  predicate StrLess(a: string, b: string) {
    if a == [] then b != []
    else if b == [] then false
    else a[0] < b[0] || (a[0] == b[0] && StrLess(a[1..], b[1..]))
  }

  lemma {:induction false} StrLessIrreflexive(a: string)
    ensures !StrLess(a, a)
  {
    if a != [] { StrLessIrreflexive(a[1..]); }
  }

  lemma {:induction false} StrLessTransitive(a: string, b: string, c: string)
    requires StrLess(a, b) && StrLess(b, c)
    ensures StrLess(a, c)
  {
    if a != [] && b != [] && c != [] && a[0] == b[0] && b[0] == c[0] {
      StrLessTransitive(a[1..], b[1..], c[1..]);
    }
  }

  lemma {:induction false} StrLessTotal(a: string, b: string)
    requires a != b
    ensures StrLess(a, b) || StrLess(b, a)
  {
    if a != [] && b != [] && a[0] == b[0] {
      assert a == [a[0]] + a[1..];
      assert b == [b[0]] + b[1..];
      StrLessTotal(a[1..], b[1..]);
    }
  }

  predicate StrictlyAscending(s: seq<string>) {
    forall i, j :: 0 <= i < j < |s| ==> StrLess(s[i], s[j])
  }

  /** Add `x` to a strictly ascending list of names, keeping it a set. */
  function InsertName(s: seq<string>, x: string): (r: seq<string>)
    requires StrictlyAscending(s)
    ensures StrictlyAscending(r)
    ensures forall y :: y in r <==> y in s || y == x
  {
    if s == [] then [x]
    else if x == s[0] then s
    else if StrLess(x, s[0]) then
      forall i | 0 < i < |s| ensures StrLess(x, s[i]) {
        StrLessTransitive(x, s[0], s[i]);
      }
      [x] + s
    else
      StrLessTotal(x, s[0]);
      var t := InsertName(s[1..], x);
      forall y | y in t ensures StrLess(s[0], y) {
        if y != x {
          var k :| 0 <= k < |s[1..]| && s[1..][k] == y;
          assert s[k + 1] == y;
        }
      }
      [s[0]] + t
  }

  /** Python's `sorted(list(set(s)))` on tile names. */
  function SortedNames(s: seq<string>): (r: seq<string>)
    ensures StrictlyAscending(r)
    ensures forall y :: y in r <==> y in s
  {
    if s == [] then []
    else InsertName(SortedNames(s[..|s| - 1]), s[|s| - 1])
  }
}
