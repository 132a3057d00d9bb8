/** Totals over a list, and counts of its items. */
module Sums {

  function SumOf<T>(f: T -> int, items: seq<T>): int {
    if items == [] then 0 else SumOf(f, items[..|items| - 1]) + f(items[|items| - 1])
  }

  lemma {:induction false} SumRemove<T>(f: T -> int, items: seq<T>, k: nat)
    requires k < |items|
    ensures SumOf(f, items) == SumOf(f, items[..k] + items[k + 1..]) + f(items[k])
  {
    var n := |items| - 1;
    if k == n {
      assert items[..k] + items[k + 1..] == items[..n];
    } else {
      SumRemove(f, items[..n], k);
      var rest := items[..k] + items[k + 1..];
      assert rest[..n - 1] == items[..n][..k] + items[..n][k + 1..];
    }
  }

  /** Taking the same item out of two permutations of each other leaves permutations of each other. */
  lemma PermutationWithout<T>(a: seq<T>, b: seq<T>, k: nat)
    requires multiset(a) == multiset(b) && a != [] && k < |b| && b[k] == a[|a| - 1]
    ensures multiset(a[..|a| - 1]) == multiset(b[..k] + b[k + 1..])
  {
    assert a == a[..|a| - 1] + [b[k]];
    assert b == b[..k] + [b[k]] + b[k + 1..];
    assert multiset(a) == multiset(a[..|a| - 1]) + multiset{b[k]};
    assert multiset(b) == multiset(b[..k]) + multiset{b[k]} + multiset(b[k + 1..]);
    assert multiset(b[..k] + b[k + 1..]) == multiset(b[..k]) + multiset(b[k + 1..]);
    assert multiset(a) - multiset{b[k]} == multiset(a[..|a| - 1]);
    assert multiset(b) - multiset{b[k]} == multiset(b[..k] + b[k + 1..]);
  }

  /** A total over a list does not depend on its order. */
  lemma {:induction false} SumOfPermutation<T>(f: T -> int, a: seq<T>, b: seq<T>)
    requires multiset(a) == multiset(b)
    ensures SumOf(f, a) == SumOf(f, b)
  {
    if a == [] {
      assert |multiset(b)| == 0;
    } else {
      var n := |a| - 1;
      assert a[n] in multiset(b);
      var k :| 0 <= k < |b| && b[k] == a[n];
      PermutationWithout(a, b, k);
      SumOfPermutation(f, a[..n], b[..k] + b[k + 1..]);
      SumRemove(f, b, k);
    }
  }

  function Select<T>(condition: T -> bool, items: seq<T>): seq<T> {
    if items == [] then []
    else
      var n := |items| - 1;
      Select(condition, items[..n]) + if condition(items[n]) then [items[n]] else []
  }

  lemma {:induction false} SelectMembers<T>(condition: T -> bool, items: seq<T>)
    ensures forall t :: t in Select(condition, items) <==> t in items && condition(t)
  {
    if items != [] {
      var n := |items| - 1;
      SelectMembers(condition, items[..n]);
      assert items == items[..n] + [items[n]];
    }
  }

  /** Two conditions of which every item meets exactly one split the items. */
  lemma {:induction false} SelectSplits<T>(a: T -> bool, b: T -> bool, items: seq<T>)
    requires forall t :: t in items ==> a(t) != b(t)
    ensures |Select(a, items)| + |Select(b, items)| == |items|
  {
    if items != [] {
      var n := |items| - 1;
      assert items[n] in items;
      SelectSplits(a, b, items[..n]);
    }
  }

  function Indicator<T>(condition: T -> bool): T -> int { t => if condition(t) then 1 else 0 }

  lemma {:induction false} CountIsSum<T>(condition: T -> bool, items: seq<T>)
    ensures |Select(condition, items)| == SumOf(Indicator(condition), items)
  {
    if items != [] { CountIsSum(condition, items[..|items| - 1]); }
  }

  /** How many items meet a condition does not depend on their order. */
  lemma CountOfPermutation<T>(condition: T -> bool, a: seq<T>, b: seq<T>)
    requires multiset(a) == multiset(b)
    ensures |Select(condition, a)| == |Select(condition, b)|
  {
    CountIsSum(condition, a);
    CountIsSum(condition, b);
    SumOfPermutation(Indicator(condition), a, b);
  }

  // ---------------------------------------------------------------- picking by position

  /** The positions below n that meet a condition, in order. */
  ghost predicate Indices(at: seq<nat>, n: nat, wanted: nat -> bool) {
    && (forall j, k :: 0 <= j < k < |at| ==> at[j] < at[k])
    && (forall i: nat :: i in at <==> i < n && wanted(i))
  }

  /** The items at some positions, in that order. */
  predicate ItemsAt<T(==)>(items: seq<T>, at: seq<nat>, picked: seq<T>) {
    |picked| == |at| && forall k :: 0 <= k < |at| ==> at[k] < |items| && picked[k] == items[at[k]]
  }

  /** The items at exactly the positions that meet a condition, in order. */
  ghost predicate Picked<T>(items: seq<T>, wanted: nat -> bool, picked: seq<T>) {
    exists at :: Indices(at, |items|, wanted) && ItemsAt(items, at, picked)
  }

  lemma IndicesNext(at: seq<nat>, n: nat, wanted: nat -> bool)
    requires Indices(at, n, wanted)
    ensures Indices(if wanted(n) then at + [n] else at, n + 1, wanted)
  {
    if wanted(n) {
      var more := at + [n];
      forall i: nat ensures i in more <==> i < n + 1 && wanted(i) {
        assert i in more <==> i in at || i == n;
      }
      assert forall j :: 0 <= j < |at| ==> at[j] in at;
    }
  }

  lemma PickedNext<T>(items: seq<T>, wanted: nat -> bool, picked: seq<T>)
    requires items != [] && Picked(items[..|items| - 1], wanted, picked)
    ensures var n := |items| - 1; Picked(items, wanted, picked + if wanted(n) then [items[n]] else [])
  {
    hide *;
    var n := |items| - 1;
    var at := WherePicked(items[..n], wanted, picked);
    IndicesNext(at, n, wanted);
    ItemsNext(items, at, picked);
    if wanted(n) {
      PickedFrom(items, wanted, at + [n], picked + [items[n]]);
    } else {
      PickedFrom(items, wanted, at, picked);
      assert picked + [] == picked;
    }
  }

  lemma WherePicked<T>(items: seq<T>, wanted: nat -> bool, picked: seq<T>) returns (at: seq<nat>)
    requires Picked(items, wanted, picked)
    ensures Indices(at, |items|, wanted) && ItemsAt(items, at, picked)
  {
    at :| Indices(at, |items|, wanted) && ItemsAt(items, at, picked);
  }

  lemma PickedFrom<T>(items: seq<T>, wanted: nat -> bool, at: seq<nat>, picked: seq<T>)
    requires Indices(at, |items|, wanted) && ItemsAt(items, at, picked)
    ensures Picked(items, wanted, picked)
  {
  }

  lemma ItemsNext<T>(items: seq<T>, at: seq<nat>, picked: seq<T>)
    requires items != [] && ItemsAt(items[..|items| - 1], at, picked)
    ensures ItemsAt(items, at, picked) && ItemsAt(items, at + [|items| - 1], picked + [items[|items| - 1]])
  {
  }

  lemma PickedNone<T>(wanted: nat -> bool)
    ensures Picked<T>([], wanted, [])
  {
    assert Indices([], 0, wanted) && ItemsAt<T>([], [], []);
  }

  function Positions(n: nat, wanted: nat -> bool): set<nat> { set i: nat | i < n && wanted(i) }

  lemma IndicesFront(at: seq<nat>, n: nat, wanted: nat -> bool)
    requires Indices(at, n, wanted) && at != []
    ensures var last := at[|at| - 1];
            && Indices(at[..|at| - 1], last, wanted) && last < n && wanted(last)
            && forall i: nat :: last < i < n ==> !wanted(i)
  {
    var m := |at| - 1;
    assert at[m] in at;
    forall i: nat ensures i in at[..m] <==> i < at[m] && wanted(i) {
      assert i in at <==> i in at[..m] || i == at[m];
    }
    assert forall i: nat :: i in at ==> i <= at[m];
  }

  lemma PositionsGrow(last: nat, n: nat, wanted: nat -> bool)
    requires last < n && wanted(last) && forall i: nat :: last < i < n ==> !wanted(i)
    ensures |Positions(n, wanted)| == |Positions(last, wanted)| + 1
  {
    assert Positions(n, wanted) == Positions(last, wanted) + {last};
  }

  lemma {:induction false} IndicesSize(at: seq<nat>, n: nat, wanted: nat -> bool)
    requires Indices(at, n, wanted)
    ensures |at| == |Positions(n, wanted)|
  {
    if at == [] {
      assert Positions(n, wanted) == {};
    } else {
      IndicesFront(at, n, wanted);
      hide Indices, Positions;
      var last := at[|at| - 1];
      IndicesSize(at[..|at| - 1], last, wanted);
      PositionsGrow(last, n, wanted);
    }
  }

  /** As many items are picked as positions meet the condition. */
  lemma PickedSize<T>(items: seq<T>, wanted: nat -> bool, picked: seq<T>)
    requires Picked(items, wanted, picked)
    ensures |picked| == |Positions(|items|, wanted)|
  {
    var at := WherePicked(items, wanted, picked);
    IndicesSize(at, |items|, wanted);
  }

  function Meeting<T>(condition: T -> bool, items: seq<T>): nat -> bool {
    (i: nat) => i < |items| && condition(items[i])
  }

  /** The selected items, counted by their positions. */
  lemma {:induction false} SelectCount<T>(condition: T -> bool, items: seq<T>)
    ensures |Select(condition, items)| == |Positions(|items|, Meeting(condition, items))|
  {
    if items != [] {
      var n := |items| - 1;
      SelectCount(condition, items[..n]);
      var before, all := Positions(n, Meeting(condition, items[..n])), Positions(|items|, Meeting(condition, items));
      assert all == if condition(items[n]) then before + {n} else before;
    }
  }
}
