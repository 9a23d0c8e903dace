/** Lists of distinct elements under a strict total order: sorting leaves nothing to chance. */
module Ordering {
  predicate Distinct<T(==)>(xs: seq<T>) {
    forall i, j :: 0 <= i < j < |xs| ==> xs[i] != xs[j]
  }

  ghost predicate StrictOrder<T(!new)>(less: (T, T) -> bool) {
    && (forall x, y :: x != y ==> less(x, y) || less(y, x))
    && (forall x, y :: less(x, y) ==> !less(y, x))
    && (forall x, y, z :: less(x, y) && less(y, z) ==> less(x, z))
  }

  ghost predicate Ascending<T(!new)>(less: (T, T) -> bool, xs: seq<T>) {
    forall i, j :: 0 <= i < j < |xs| ==> less(xs[i], xs[j])
  }

  /** A sorted list of distinct elements is determined by its members: whatever order they were
      found in, `sorted` publishes the same list. */
  lemma {:induction false} SortedListIsUnique<T(!new)>(less: (T, T) -> bool, a: seq<T>, b: seq<T>)
    requires StrictOrder(less) && Ascending(less, a) && Ascending(less, b)
    requires forall x :: x in a <==> x in b
    ensures a == b
  {
    assert a != [] ==> a[0] in b;
    assert b != [] ==> b[0] in a;
    if a != [] {
      FirstIsLeast(less, a, b[0]);
      FirstIsLeast(less, b, a[0]);
      assert a[0] == b[0];
      forall x ensures x in a[1..] <==> x in b[1..] {
        TailDropsFirst(less, a, x);
        TailDropsFirst(less, b, x);
      }
      SortedListIsUnique(less, a[1..], b[1..]);
      assert a == [a[0]] + a[1..] && b == [b[0]] + b[1..];
    }
  }

  lemma FirstIsLeast<T(!new)>(less: (T, T) -> bool, xs: seq<T>, x: T)
    requires StrictOrder(less) && Ascending(less, xs) && xs != [] && x in xs
    ensures x == xs[0] || less(xs[0], x)
  {
    var k :| 0 <= k < |xs| && xs[k] == x;
  }

  lemma TailDropsFirst<T(!new)>(less: (T, T) -> bool, xs: seq<T>, x: T)
    requires StrictOrder(less) && Ascending(less, xs) && xs != []
    ensures x in xs[1..] <==> x in xs && x != xs[0]
  {
    if x in xs && x != xs[0] {
      var k :| 0 <= k < |xs| && xs[k] == x;
      assert xs[1..][k - 1] == x;
    }
    if x in xs[1..] {
      var k :| 0 <= k < |xs[1..]| && xs[1..][k] == x;
      assert less(xs[0], xs[k + 1]);
    }
  }

  // ------------------------------------------------------------------ sorting by a key

  /** What `sorted(..., key=...)` gives: no element has a smaller key than an earlier one. */
  ghost predicate SortedBy<T, K>(less: (K, K) -> bool, key: T -> K, xs: seq<T>) {
    forall i, j :: 0 <= i < j < |xs| ==> !less(key(xs[j]), key(xs[i]))
  }

  /** `less` orders keys strictly; it need not tell all of them apart. */
  ghost predicate WeakOrder<K(!new)>(less: (K, K) -> bool) {
    && (forall x, y :: less(x, y) ==> !less(y, x))
    && (forall x, y, z :: less(x, y) && less(y, z) ==> less(x, z))
    && (forall x, y, z :: !less(x, y) && !less(y, z) ==> !less(x, z))
  }

  /** `sorted` by a key. */
  method SortBy<T, K(!new)>(less: (K, K) -> bool, key: T -> K, xs: seq<T>) returns (sorted: seq<T>)
    requires WeakOrder(less)
    ensures multiset(sorted) == multiset(xs) && SortedBy(less, key, sorted)
  {
    sorted := [];
    for n := 0 to |xs|
      invariant multiset(sorted) == multiset(xs[..n]) && SortedBy(less, key, sorted)
    {
      assert xs[..n + 1] == xs[..n] + [xs[n]];
      sorted := InsertBy(less, key, sorted, xs[n]);
    }
    assert xs[..|xs|] == xs;
  }

  method InsertBy<T, K(!new)>(less: (K, K) -> bool, key: T -> K, xs: seq<T>, x: T) returns (more: seq<T>)
    requires WeakOrder(less) && SortedBy(less, key, xs)
    ensures multiset(more) == multiset(xs) + multiset{x} && SortedBy(less, key, more)
  {
    var k := |xs|;
    while k > 0 && less(key(x), key(xs[k - 1]))
      invariant 0 <= k <= |xs|
      invariant forall j :: k <= j < |xs| ==> less(key(x), key(xs[j]))
    {
      k := k - 1;
    }
    more := xs[..k] + [x] + xs[k..];
    assert xs == xs[..k] + xs[k..];
    InsertedInOrder(less, key, xs, x, k);
  }

  lemma InsertedInOrder<T, K(!new)>(less: (K, K) -> bool, key: T -> K, xs: seq<T>, x: T, k: nat)
    requires WeakOrder(less) && SortedBy(less, key, xs) && k <= |xs|
    requires k > 0 ==> !less(key(x), key(xs[k - 1]))
    requires forall j :: k <= j < |xs| ==> less(key(x), key(xs[j]))
    ensures SortedBy(less, key, xs[..k] + [x] + xs[k..])
  {
    var more := xs[..k] + [x] + xs[k..];
    forall i, j | 0 <= i < j < |more| ensures !less(key(more[j]), key(more[i])) {
      assert more[i] == if i < k then xs[i] else if i == k then x else xs[i - 1];
      assert more[j] == if j < k then xs[j] else if j == k then x else xs[j - 1];
      if j == k && i < k - 1 {
        assert !less(key(xs[k - 1]), key(xs[i]));
      }
    }
  }

  lemma StrictIsWeak<K(!new)>(less: (K, K) -> bool)
    requires StrictOrder(less)
    ensures WeakOrder(less)
  {
    forall x, y, z | !less(x, y) && !less(y, z) ensures !less(x, z) {
      assert x == y || less(y, x);
      assert y == z || less(z, y);
    }
  }

  /** Sorting by a key that tells the elements apart leaves nothing to chance, repetitions included. */
  lemma {:induction false} SortedByKeyIsUnique<T(!new), K(!new)>(less: (K, K) -> bool, key: T -> K, a: seq<T>, b: seq<T>)
    requires StrictOrder(less) && SortedBy(less, key, a) && SortedBy(less, key, b) && multiset(a) == multiset(b)
    requires forall x, y :: x in a && y in a && key(x) == key(y) ==> x == y
    ensures a == b
    decreases |a|
  {
    hide StrictOrder, SortedBy;
    SameMembers(a, b);
    if a != [] {
      SameFirst(less, key, a, b);
      DropFirst(less, key, a);
      DropFirst(less, key, b);
      SortedByKeyIsUnique(less, key, a[1..], b[1..]);
      Rejoined(a, b);
    }
  }

  lemma SameMembers<T>(a: seq<T>, b: seq<T>)
    requires multiset(a) == multiset(b)
    ensures |a| == |b| && (a != [] ==> a[0] in b && b[0] in a)
  {
    assert |a| == |multiset(a)| == |multiset(b)| == |b|;
    if a != [] {
      assert a[0] in multiset(b) && b[0] in multiset(a);
    }
  }

  lemma Rejoined<T>(a: seq<T>, b: seq<T>)
    requires a != [] && b != [] && a[0] == b[0] && a[1..] == b[1..]
    ensures a == b
  {
    assert a == [a[0]] + a[1..] && b == [b[0]] + b[1..];
  }

  lemma SameFirst<T(!new), K(!new)>(less: (K, K) -> bool, key: T -> K, a: seq<T>, b: seq<T>)
    requires StrictOrder(less) && SortedBy(less, key, a) && SortedBy(less, key, b) && a != [] && b != [] && a[0] in b && b[0] in a
    requires forall x, y :: x in a && y in a && key(x) == key(y) ==> x == y
    ensures a[0] == b[0]
  {
    SmallestFirst(less, key, a, b[0]);
    SmallestFirst(less, key, b, a[0]);
  }

  lemma DropFirst<T, K(!new)>(less: (K, K) -> bool, key: T -> K, xs: seq<T>)
    requires SortedBy(less, key, xs) && xs != []
    ensures SortedBy(less, key, xs[1..]) && multiset(xs[1..]) == multiset(xs) - multiset{xs[0]}
    ensures forall x :: x in xs[1..] ==> x in xs
  {
    assert xs == [xs[0]] + xs[1..];
  }

  lemma SmallestFirst<T, K(!new)>(less: (K, K) -> bool, key: T -> K, xs: seq<T>, x: T)
    requires StrictOrder(less) && SortedBy(less, key, xs) && x in xs
    ensures !less(key(x), key(xs[0]))
  {
    var k :| 0 <= k < |xs| && xs[k] == x;
    assert less(key(x), key(x)) ==> !less(key(x), key(x));
  }

  /** In a list without repetitions every element counts once. */
  lemma {:induction false} DistinctCounts<T>(xs: seq<T>)
    ensures Distinct(xs) <==> forall x :: multiset(xs)[x] <= 1
  {
    if xs != [] {
      var n := |xs| - 1;
      var before, last := xs[..n], xs[n];
      DistinctCounts(before);
      assert xs == before + [last];
      assert forall x :: x in before <==> x in multiset(before);
      if last in before {
        assert multiset(xs)[last] >= 2;
        var k :| 0 <= k < |before| && before[k] == last;
        assert xs[k] == xs[n];
      } else {
        forall x ensures multiset(xs)[x] <= 1 <==> multiset(before)[x] <= 1 {
          assert multiset(xs)[x] == multiset(before)[x] + if x == last then 1 else 0;
        }
        assert Distinct(xs) <==> Distinct(before) by {
          assert forall i :: 0 <= i < n ==> xs[i] == before[i] && xs[i] in before;
        }
      }
    }
  }
}
