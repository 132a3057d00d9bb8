/** The stable sort by a key. */
module Sorting {

  ghost predicate OrderedBy<T(!new)>(key: T -> real, items: seq<T>) {
    forall i, j :: 0 <= i < j < |items| ==> key(items[i]) <= key(items[j])
  }

  function Insert<T>(key: T -> real, sorted: seq<T>, item: T): seq<T> {
    if sorted == [] then [item]
    else
      var n := |sorted| - 1;
      if key(sorted[n]) <= key(item) then sorted + [item] else Insert(key, sorted[..n], item) + [sorted[n]]
  }

  function SortBy<T>(key: T -> real, items: seq<T>): seq<T> {
    if items == [] then []
    else Insert(key, SortBy(key, items[..|items| - 1]), items[|items| - 1])
  }

  /** The items of one key, in order. */
  function WithKey<T>(key: T -> real, items: seq<T>, k: real): seq<T> {
    if items == [] then []
    else
      var n := |items| - 1;
      if key(items[n]) == k then WithKey(key, items[..n], k) + [items[n]] else WithKey(key, items[..n], k)
  }

  lemma {:induction false} InsertPermutes<T>(key: T -> real, sorted: seq<T>, item: T)
    ensures multiset(Insert(key, sorted, item)) == multiset(sorted) + multiset{item}
  {
    if sorted != [] {
      var n := |sorted| - 1;
      InsertPermutes(key, sorted[..n], item);
      assert sorted == sorted[..n] + [sorted[n]];
    }
  }

  lemma {:induction false} InsertOrders<T(!new)>(key: T -> real, sorted: seq<T>, item: T)
    requires OrderedBy(key, sorted)
    ensures OrderedBy(key, Insert(key, sorted, item))
  {
    if sorted != [] {
      var n := |sorted| - 1;
      if key(sorted[n]) <= key(item) {
        assert forall i :: 0 <= i < n ==> key(sorted[i]) <= key(sorted[n]);
        AppendOrders(key, sorted, item);
      } else {
        InsertOrders(key, sorted[..n], item);
        var front := Insert(key, sorted[..n], item);
        forall i | 0 <= i < |front| ensures key(front[i]) <= key(sorted[n]) {
          InsertPermutes(key, sorted[..n], item);
          assert front[i] in multiset(front);
        }
        AppendOrders(key, front, sorted[n]);
      }
    }
  }

  lemma AppendOrders<T(!new)>(key: T -> real, sorted: seq<T>, item: T)
    requires OrderedBy(key, sorted) && forall i :: 0 <= i < |sorted| ==> key(sorted[i]) <= key(item)
    ensures OrderedBy(key, sorted + [item])
  {
  }

  lemma {:induction false} WithKeyInsert<T(!new)>(key: T -> real, sorted: seq<T>, item: T, k: real)
    requires OrderedBy(key, sorted)
    ensures WithKey(key, Insert(key, sorted, item), k)
            == if key(item) == k then WithKey(key, sorted, k) + [item] else WithKey(key, sorted, k)
  {
    if sorted != [] {
      var n := |sorted| - 1;
      var s := Insert(key, sorted, item);
      if key(sorted[n]) <= key(item) {
        assert s[..n + 1] == sorted;
      } else {
        WithKeyInsert(key, sorted[..n], item, k);
        assert s[..|s| - 1] == Insert(key, sorted[..n], item);
        if key(item) == k { assert key(sorted[n]) != k; }
      }
    }
  }

  lemma {:induction false} SortOrders<T(!new)>(key: T -> real, items: seq<T>)
    ensures OrderedBy(key, SortBy(key, items))
  {
    if items != [] {
      var n := |items| - 1;
      SortOrders(key, items[..n]);
      InsertOrders(key, SortBy(key, items[..n]), items[n]);
    }
  }

  lemma {:induction false} SortPermutes<T>(key: T -> real, items: seq<T>)
    ensures multiset(SortBy(key, items)) == multiset(items)
    ensures |SortBy(key, items)| == |items|
  {
    if items != [] {
      var n := |items| - 1;
      SortPermutes(key, items[..n]);
      InsertPermutes(key, SortBy(key, items[..n]), items[n]);
      assert items == items[..n] + [items[n]];
      assert |multiset(SortBy(key, items))| == |multiset(items)|;
    }
  }

  /** The sort keeps the order of items with equal keys. */
  lemma {:induction false} SortIsStable<T(!new)>(key: T -> real, items: seq<T>, k: real)
    ensures WithKey(key, SortBy(key, items), k) == WithKey(key, items, k)
  {
    if items != [] {
      var n := |items| - 1;
      SortIsStable(key, items[..n], k);
      SortOrders(key, items[..n]);
      WithKeyInsert(key, SortBy(key, items[..n]), items[n], k);
    }
  }

  lemma {:induction false} SortOfOrdered<T(!new)>(key: T -> real, items: seq<T>)
    requires OrderedBy(key, items)
    ensures SortBy(key, items) == items
  {
    if items != [] {
      var n := |items| - 1;
      SortOfOrdered(key, items[..n]);
      assert items == items[..n] + [items[n]];
    }
  }

  /** Sorting a sorted batch together with more items is sorting everything at once. */
  lemma {:induction false} SortAppend<T(!new)>(key: T -> real, first: seq<T>, more: seq<T>)
    ensures SortBy(key, SortBy(key, first) + more) == SortBy(key, first + more)
  {
    if more == [] {
      SortOrders(key, first);
      SortOfOrdered(key, SortBy(key, first));
      assert first + more == first && SortBy(key, first) + more == SortBy(key, first);
    } else {
      var n := |more| - 1;
      SortAppend(key, first, more[..n]);
      assert first + more == first + more[..n] + [more[n]];
      assert SortBy(key, first) + more == SortBy(key, first) + more[..n] + [more[n]];
      SortNext(key, first + more[..n], more[n]);
      SortNext(key, SortBy(key, first) + more[..n], more[n]);
      hide SortBy, Insert;
    }
  }

  lemma SortNext<T>(key: T -> real, items: seq<T>, item: T)
    ensures SortBy(key, items + [item]) == Insert(key, SortBy(key, items), item)
  {
    assert (items + [item])[..|items|] == items;
  }

  predicate KeysDistinct<T(==,!new)>(key: T -> real, a: seq<T>) {
    forall x, y :: x in a && y in a && key(x) == key(y) ==> x == y
  }

  /** Two sorted lists of the same items, no two of which share a key, are the same. */
  lemma {:induction false} SortedUnique<T(!new)>(key: T -> real, a: seq<T>, b: seq<T>)
    requires OrderedBy(key, a) && OrderedBy(key, b) && multiset(a) == multiset(b)
    requires KeysDistinct(key, a)
    ensures a == b
  {
    SameSize(a, b);
    if a != [] {
      LastIsSame(key, a, b);
      WithoutLast(a);
      WithoutLast(b);
      FrontOrdered(key, a);
      FrontOrdered(key, b);
      hide OrderedBy, KeysDistinct;
      SortedUnique(key, a[..|a| - 1], b[..|b| - 1]);
      SameEnd(a, b);
    }
  }

  lemma SameSize<T>(a: seq<T>, b: seq<T>)
    requires multiset(a) == multiset(b)
    ensures |a| == |b|
  {
    assert |multiset(a)| == |multiset(b)|;
  }

  lemma SameEnd<T>(a: seq<T>, b: seq<T>)
    requires |a| == |b| > 0 && a[..|a| - 1] == b[..|b| - 1] && a[|a| - 1] == b[|b| - 1]
    ensures a == b
  {
    assert a == a[..|a| - 1] + [a[|a| - 1]] && b == b[..|b| - 1] + [b[|b| - 1]];
  }

  lemma LastIsSame<T(!new)>(key: T -> real, a: seq<T>, b: seq<T>)
    requires a != [] && b != [] && OrderedBy(key, a) && OrderedBy(key, b) && multiset(a) == multiset(b)
    requires KeysDistinct(key, a)
    ensures a[|a| - 1] == b[|b| - 1]
  {
    LastAtMost(key, a, b);
    LastAtMost(key, b, a);
    assert b[|b| - 1] in multiset(a);
  }

  lemma FrontOrdered<T(!new)>(key: T -> real, a: seq<T>)
    requires a != [] && OrderedBy(key, a)
    ensures OrderedBy(key, a[..|a| - 1])
    ensures KeysDistinct(key, a) ==> KeysDistinct(key, a[..|a| - 1])
  {
  }

  lemma LastAtMost<T(!new)>(key: T -> real, a: seq<T>, b: seq<T>)
    requires a != [] && b != [] && OrderedBy(key, b) && multiset(a) == multiset(b)
    ensures key(a[|a| - 1]) <= key(b[|b| - 1])
  {
    assert a[|a| - 1] in multiset(b);
    var k :| 0 <= k < |b| && b[k] == a[|a| - 1];
  }

  lemma WithoutLast<T>(a: seq<T>)
    requires a != []
    ensures multiset(a[..|a| - 1]) == multiset(a) - multiset{a[|a| - 1]}
  {
    assert a == a[..|a| - 1] + [a[|a| - 1]];
  }
}
