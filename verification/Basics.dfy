/** Vocabulary shared by the modules: optional values, and what a library sort promises. */
module Basics {

  datatype Option<+T> = None | Some(value: T)

  function Max(a: int, b: int): int { if a < b then b else a }

  function Min(a: int, b: int): int { if a < b then a else b }

  function Sum(values: seq<int>): int
  {
    if values == [] then 0 else Sum(values[..|values| - 1]) + values[|values| - 1]
  }

  /** How many elements satisfy `p`. */
  function Count<T>(s: seq<T>, p: T -> bool): nat
  {
    if s == [] then 0 else Count(s[..|s| - 1], p) + if p(s[|s| - 1]) then 1 else 0
  }

  lemma {:induction false} CountIsCardinality<T>(s: seq<T>, p: T -> bool, positions: set<int>)
    requires forall i | i in positions :: 0 <= i < |s| && p(s[i])
    requires forall i | 0 <= i < |s| && p(s[i]) :: i in positions
    ensures Count(s, p) == |positions|
  {
    if s == [] {
      forall i ensures i !in positions {
        if i in positions { assert false; }
      }
      assert positions == {};
    } else {
      var init, last := s[..|s| - 1], |s| - 1;
      CountIsCardinality(init, p, positions - {last});
      if last in positions { assert positions == positions - {last} + {last}; }
      else { assert positions == positions - {last}; }
    }
  }

  predicate NoDup<T(==)>(s: seq<T>)
  {
    forall i, j :: 0 <= i < j < |s| ==> s[i] != s[j]
  }

  // ---- sorting by a comparator --------------------------------------------

  /** `less` is a strict weak order on the elements of `items`: what sort.Slice needs of its comparator. */
  ghost predicate StrictWeakOn<T(!new)>(less: (T, T) -> bool, items: seq<T>)
  {
    && (forall x :: x in items ==> !less(x, x))
    && (forall x, y, z :: x in items && y in items && z in items && less(x, y) && less(y, z) ==> less(x, z))
    && (forall x, y, z :: x in items && y in items && z in items && less(x, z) ==> less(x, y) || less(y, z))
  }

  /** Any two different elements of `items` are ordered by `less`. */
  ghost predicate TotalOn<T(!new)>(less: (T, T) -> bool, items: seq<T>)
  {
    forall x, y :: x in items && y in items && x != y ==> less(x, y) || less(y, x)
  }

  /** No later element goes before an earlier one. */
  ghost predicate SortedBy<T(!new)>(less: (T, T) -> bool, items: seq<T>)
  {
    forall i, j :: 0 <= i < j < |items| ==> !less(items[j], items[i])
  }

  /** A library sort: any algorithm that returns a permutation, sorted if the comparator makes sense of it, will
      do; ties come out in any order. */
  method Sort<T(!new, ==)>(less: (T, T) -> bool, items: seq<T>) returns (sorted: seq<T>)
    ensures multiset(sorted) == multiset(items)
    ensures StrictWeakOn(less, items) ==> SortedBy(less, sorted)
  {
    sorted := [];
    for n := 0 to |items|
      invariant multiset(sorted) == multiset(items[..n])
      invariant StrictWeakOn(less, items) ==> SortedBy(less, sorted)
    {
      assert items[..n + 1] == items[..n] + [items[n]];
      forall x | x in sorted ensures x in items {
        assert x in multiset(sorted);
        assert x in items[..n];
      }
      sorted := Insert(less, items, sorted, items[n]);
    }
    assert items[..|items|] == items;
  }

  method Insert<T(!new, ==)>(less: (T, T) -> bool, ghost items: seq<T>, sorted: seq<T>, item: T)
    returns (longer: seq<T>)
    requires item in items && forall x :: x in sorted ==> x in items
    ensures multiset(longer) == multiset(sorted) + multiset{item}
    ensures StrictWeakOn(less, items) && SortedBy(less, sorted) ==> SortedBy(less, longer)
  {
    var k := |sorted|;
    while k > 0 && less(item, sorted[k - 1])
      invariant 0 <= k <= |sorted|
      invariant forall j :: k <= j < |sorted| ==> less(item, sorted[j])
    {
      k := k - 1;
    }
    if StrictWeakOn(less, items) && SortedBy(less, sorted) { InsertKeepsSorted(less, items, sorted, item, k); }
    assert sorted == sorted[..k] + sorted[k..];
    longer := sorted[..k] + [item] + sorted[k..];
  }

  lemma InsertKeepsSorted<T(!new)>(less: (T, T) -> bool, items: seq<T>, sorted: seq<T>, item: T, k: nat)
    requires StrictWeakOn(less, items) && SortedBy(less, sorted)
    requires item in items && forall x :: x in sorted ==> x in items
    requires k <= |sorted|
    requires k > 0 ==> !less(item, sorted[k - 1])
    requires forall j :: k <= j < |sorted| ==> less(item, sorted[j])
    ensures SortedBy(less, sorted[..k] + [item] + sorted[k..])
  {}

  /** A total comparator leaves the sort no choice: two sorted permutations of the same elements are equal. */
  lemma {:induction false} SortedUnique<T(!new)>(less: (T, T) -> bool, a: seq<T>, b: seq<T>)
    requires multiset(a) == multiset(b)
    requires TotalOn(less, a) && SortedBy(less, a) && SortedBy(less, b)
    requires forall x :: x in a ==> !less(x, x)
    ensures a == b
  {
    if a == [] {
      assert |multiset(b)| == 0;
    } else {
      assert |multiset(b)| == |multiset(a)| > 0;
      assert a[0] in multiset(b) && b[0] in multiset(a);
      var i :| 0 <= i < |a| && a[i] == b[0];
      var j :| 0 <= j < |b| && b[j] == a[0];
      assert a[0] == b[0] by {
        // otherwise one of the two goes first, and the other sequence has it too late
        assert i > 0 ==> !less(a[i], a[0]);
        assert j > 0 ==> !less(b[j], b[0]);
      }
      DropFirst(a);
      DropFirst(b);
      SortedUnique(less, a[1..], b[1..]);
    }
  }

  lemma DropFirst<T>(s: seq<T>)
    requires s != []
    ensures multiset(s[1..]) == multiset(s) - multiset{s[0]}
  {
    assert s == [s[0]] + s[1..];
  }

  lemma CutAt<T>(s: seq<T>, j: nat)
    requires j < |s|
    ensures s == s[..j] + [s[j]] + s[j + 1..]
  {}

  lemma DropAt<T>(s: seq<T>, j: nat)
    requires j < |s|
    ensures multiset(s[..j] + s[j + 1..]) == multiset(s) - multiset{s[j]}
  {
    CutAt(s, j);
  }

  lemma LookupAt<S(!new), T>(m: map<S, T>, s: seq<S>, j: nat)
    requires j < |s| && forall x :: x in s ==> x in m
    ensures forall x :: x in s[..j] + s[j + 1..] ==> x in s
    ensures multiset(Lookup(m, s[..j] + s[j + 1..])) == multiset(Lookup(m, s)) - multiset{m[s[j]]}
  {
    DropAt(Lookup(m, s), j);
    assert Lookup(m, s)[..j] + Lookup(m, s)[j + 1..] == Lookup(m, s[..j] + s[j + 1..]);
  }

  /** Mapping commutes with permutation. */
  lemma {:induction false} MapPermutes<S(!new), T>(m: map<S, T>, a: seq<S>, b: seq<S>)
    requires multiset(a) == multiset(b)
    requires forall x :: x in a ==> x in m
    ensures forall x :: x in b ==> x in m
    ensures multiset(Lookup(m, a)) == multiset(Lookup(m, b))
    decreases |a|
  {
    forall x | x in b ensures x in m { assert x in multiset(a); }
    if a == [] {
      assert |multiset(b)| == 0;
    } else {
      assert a[0] in multiset(b);
      var j :| 0 <= j < |b| && b[j] == a[0];
      DropAt(a, 0);
      DropAt(b, j);
      LookupAt(m, a, 0);
      LookupAt(m, b, j);
      MapPermutes(m, a[..0] + a[1..], b[..j] + b[j + 1..]);
      LookupHas(m, a, 0);
      LookupHas(m, b, j);
      Restore(multiset(Lookup(m, a)), multiset(Lookup(m, b)), m[a[0]]);
    }
  }

  lemma LookupHas<S(!new), T>(m: map<S, T>, s: seq<S>, j: nat)
    requires j < |s| && forall x :: x in s ==> x in m
    ensures m[s[j]] in multiset(Lookup(m, s))
  {
    assert Lookup(m, s)[j] == m[s[j]];
  }

  lemma Restore<T>(a: multiset<T>, b: multiset<T>, x: T)
    requires x in a && x in b && a - multiset{x} == b - multiset{x}
    ensures a == b
  {
    assert a == a - multiset{x} + multiset{x};
    assert b == b - multiset{x} + multiset{x};
  }

  function Lookup<S, T>(m: map<S, T>, keys: seq<S>): (values: seq<T>)
    requires forall k :: k in keys ==> k in m
  {
    seq(|keys|, i requires 0 <= i < |keys| => m[keys[i]])
  }

  /** Two duplicate-free listings of one set are permutations of each other. */
  lemma {:induction false} ListingsPermute<T(!new)>(a: seq<T>, b: seq<T>)
    requires NoDup(a) && NoDup(b)
    requires forall x :: x in a <==> x in b
    ensures multiset(a) == multiset(b)
  {
    forall x ensures multiset(a)[x] == multiset(b)[x] {
      NoDupCount(a, x);
      NoDupCount(b, x);
    }
  }

  lemma {:induction false} NoDupCount<T(!new)>(s: seq<T>, x: T)
    requires NoDup(s)
    ensures multiset(s)[x] == if x in s then 1 else 0
  {
    if s != [] {
      assert s == [s[0]] + s[1..];
      NoDupCount(s[1..], x);
    }
  }

  lemma NoDupFits<T(!new)>(a: seq<T>, b: seq<T>)
    requires NoDup(a) && forall x :: x in a ==> x in b
    ensures |a| <= |b|
  {
    forall x ensures multiset(a)[x] <= multiset(b)[x] {
      NoDupCount(a, x);
      if x in a { assert x in multiset(b); }
    }
    assert multiset(b) == multiset(a) + (multiset(b) - multiset(a));
  }

  lemma CountTwice<T>(s: seq<T>, i: nat, j: nat)
    requires i < j < |s| && s[i] == s[j]
    ensures multiset(s)[s[i]] >= 2
  {
    assert s == s[..i] + [s[i]] + s[i + 1..j] + [s[j]] + s[j + 1..];
  }

  lemma NoDupParts<T(!new)>(a: seq<T>, b: seq<T>)
    requires NoDup(b) && multiset(a) <= multiset(b)
    ensures NoDup(a)
  {
    forall i, j | 0 <= i < j < |a| ensures a[i] != a[j] {
      NoDupCount(b, a[i]);
      if a[i] == a[j] { CountTwice(a, i, j); }
    }
  }

  lemma Cancel<T>(a: multiset<T>, b: multiset<T>, c: multiset<T>)
    requires a + b == a + c
    ensures b == c
  {
    assert b == (a + b) - a;
    assert c == (a + c) - a;
  }
}
