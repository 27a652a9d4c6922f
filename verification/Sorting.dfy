/** Sorting of a file's records before they are written, and what a permutation leaves unchanged. */
module Sorting {

  /** Puts x before the first element that it comes before. */
  function Insert<T>(x: T, ys: seq<T>, before: (T, T) -> bool): seq<T> {
    if |ys| == 0 || before(x, ys[0]) then [x] + ys else [ys[0]] + Insert(x, ys[1..], before)
  }

  function Sorted<T>(xs: seq<T>, before: (T, T) -> bool): seq<T> {
    if |xs| == 0 then [] else Insert(xs[0], Sorted(xs[1..], before), before)
  }

  lemma {:induction false} InsertAt<T>(x: T, ys: seq<T>, before: (T, T) -> bool) returns (k: nat)
    ensures k <= |ys| && Insert(x, ys, before) == ys[..k] + [x] + ys[k..]
  {
    if |ys| == 0 || before(x, ys[0]) {
      k := 0;
    } else {
      var k1 := InsertAt(x, ys[1..], before);
      k := k1 + 1;
      assert ys == [ys[0]] + ys[1..];
    }
  }

  lemma {:induction false} SortedIsPermutation<T>(xs: seq<T>, before: (T, T) -> bool)
    ensures multiset(Sorted(xs, before)) == multiset(xs)
  {
    if |xs| > 0 {
      SortedIsPermutation(xs[1..], before);
      var rest := Sorted(xs[1..], before);
      InsertMultiset(xs[0], rest, before);
      assert xs == [xs[0]] + xs[1..];
    }
  }

  lemma InsertMultiset<T>(x: T, ys: seq<T>, before: (T, T) -> bool)
    ensures multiset(Insert(x, ys, before)) == multiset{x} + multiset(ys)
  {
    var k := InsertAt(x, ys, before);
    assert ys == ys[..k] + ys[k..];
    assert multiset(ys) == multiset(ys[..k]) + multiset(ys[k..]);
  }

  lemma PermutationMembers<T>(a: seq<T>, b: seq<T>)
    requires multiset(a) == multiset(b)
    ensures |a| == |b| && forall x :: x in a <==> x in b
  {
    assert |multiset(a)| == |multiset(b)|;
    forall x
      ensures x in a <==> x in b
    {
      assert x in multiset(a) <==> x in multiset(b);
    }
  }

  /* ----- The order of the result ----- */

  ghost predicate Ordered<T>(xs: seq<T>, before: (T, T) -> bool) {
    forall i, j | 0 <= i < j < |xs| :: before(xs[i], xs[j])
  }

  /** `before` puts any two of the elements in one order. */
  ghost predicate TotalOn<T>(xs: seq<T>, before: (T, T) -> bool) {
    && (forall i, j | 0 <= i < j < |xs| :: before(xs[i], xs[j]) || before(xs[j], xs[i]))
    && (forall x | x in xs :: !before(x, x))
    && (forall x, y, z | x in xs && y in xs && z in xs && before(x, y) && before(y, z) :: before(x, z))
  }

  lemma InsertKeepsOrdered<T>(x: T, ys: seq<T>, before: (T, T) -> bool)
    requires Ordered(ys, before) && forall y | y in ys :: before(x, y) || before(y, x)
    requires forall y, z | y in ys && z in ys && before(x, y) && before(y, z) :: before(x, z)
    ensures Ordered(Insert(x, ys, before), before)
  {
    if |ys| > 0 && !before(x, ys[0]) {
      var tail := ys[1..];
      var rest := Insert(x, tail, before);
      InsertKeepsOrdered(x, tail, before);
      var k := InsertAt(x, tail, before);
      assert ys[0] in ys;
      forall j | 0 <= j < |rest|
        ensures before(ys[0], rest[j])
      {
        assert rest[j] == if j < k then tail[j] else if j == k then x else tail[j - 1];
        assert j < k ==> rest[j] == ys[j + 1];
        assert j > k ==> rest[j] == ys[j];
      }
    } else if |ys| > 0 {
      forall j | 0 <= j < |ys|
        ensures before(x, ys[j])
      {
        assert ys[j] in ys && ys[0] in ys;
        assert j > 0 ==> before(ys[0], ys[j]);
      }
    }
  }

  lemma {:induction false} SortedIsOrdered<T>(xs: seq<T>, before: (T, T) -> bool)
    requires TotalOn(xs, before)
    ensures Ordered(Sorted(xs, before), before)
  {
    if |xs| > 0 {
      var x, tail := xs[0], xs[1..];
      var rest := Sorted(tail, before);
      SortedIsOrdered(tail, before);
      SortedIsPermutation(tail, before);
      forall y | y in rest
        ensures y in xs && (before(x, y) || before(y, x))
      {
        assert y in multiset(rest);
        assert y in multiset(tail);
        var j :| 0 <= j < |tail| && tail[j] == y;
        assert xs[j + 1] == y;
      }
      assert x in xs;
      InsertKeepsOrdered(x, rest, before);
    }
  }

  ghost predicate Asymmetric<T>(xs: seq<T>, before: (T, T) -> bool) {
    forall x, y | x in xs && y in xs :: !(before(x, y) && before(y, x))
  }

  lemma FirstIsFirst<T>(a: seq<T>, b: seq<T>, before: (T, T) -> bool)
    requires multiset(a) == multiset(b) && Ordered(a, before) && Ordered(b, before) && |a| > 0 && |b| > 0
    requires Asymmetric(a, before)
    ensures a[0] == b[0]
  {
    assert a[0] in multiset(b) && b[0] in multiset(a);
    var k :| 0 <= k < |b| && b[k] == a[0];
    var j :| 0 <= j < |a| && a[j] == b[0];
    assert a[0] in a && a[j] in a;
    assert k == 0 || j == 0;
  }

  lemma TailMultiset<T>(xs: seq<T>)
    requires |xs| > 0
    ensures multiset(xs[1..]) == multiset(xs) - multiset{xs[0]}
  {
    assert xs == [xs[0]] + xs[1..];
  }

  lemma TailAsymmetric<T>(xs: seq<T>, before: (T, T) -> bool)
    requires Asymmetric(xs, before) && |xs| > 0
    ensures Asymmetric(xs[1..], before)
  {
    assert forall x | x in xs[1..] :: x in xs;
  }

  /** Two orderings of the same elements are the same list. */
  lemma {:induction false} OrderedUnique<T>(a: seq<T>, b: seq<T>, before: (T, T) -> bool)
    requires multiset(a) == multiset(b) && Ordered(a, before) && Ordered(b, before) && Asymmetric(a, before)
    ensures a == b
    decreases |a|
  {
    assert |a| == |multiset(a)| == |multiset(b)| == |b|;
    if |a| > 0 {
      FirstIsFirst(a, b, before);
      TailMultiset(a);
      TailMultiset(b);
      var s, t := a[1..], b[1..];
      TailAsymmetric(a, before);
      OrderedUnique(s, t, before);
      assert a == [a[0]] + s && b == [b[0]] + t;
    }
  }

  /** Whatever algorithm sorts, the result is the one of insertion sort. */
  lemma AnySortAgrees<T>(xs: seq<T>, ys: seq<T>, before: (T, T) -> bool)
    requires TotalOn(xs, before) && multiset(ys) == multiset(xs) && Ordered(ys, before)
    ensures ys == Sorted(xs, before)
  {
    var sorted := Sorted(xs, before);
    SortedIsOrdered(xs, before);
    SortedIsPermutation(xs, before);
    forall x, y | x in ys && y in ys
      ensures !(before(x, y) && before(y, x))
    {
      assert x in multiset(xs) && y in multiset(xs);
    }
    OrderedUnique(ys, sorted, before);
  }

  /* ----- Sorting by a number ----- */

  ghost predicate Chronological<T>(xs: seq<T>, at: T -> int) {
    forall i, j | 0 <= i < j < |xs| :: at(xs[i]) <= at(xs[j])
  }

  lemma {:induction false} InsertChronological<T>(x: T, ys: seq<T>, before: (T, T) -> bool, at: T -> int)
    requires forall a, b :: (before(a, b) ==> at(a) <= at(b)) && (!before(a, b) ==> at(b) <= at(a))
    requires Chronological(ys, at)
    ensures Chronological(Insert(x, ys, before), at)
  {
    if |ys| > 0 && !before(x, ys[0]) {
      var tail := ys[1..];
      var rest := Insert(x, tail, before);
      InsertChronological(x, tail, before, at);
      var k := InsertAt(x, tail, before);
      forall j | 0 <= j < |rest|
        ensures at(ys[0]) <= at(rest[j])
      {
        assert rest[j] == if j < k then tail[j] else if j == k then x else tail[j - 1];
      }
    }
  }

  lemma {:induction false} SortedChronological<T>(xs: seq<T>, before: (T, T) -> bool, at: T -> int)
    requires forall a, b :: (before(a, b) ==> at(a) <= at(b)) && (!before(a, b) ==> at(b) <= at(a))
    ensures Chronological(Sorted(xs, before), at)
  {
    if |xs| > 0 {
      SortedChronological(xs[1..], before, at);
      InsertChronological(xs[0], Sorted(xs[1..], before), before, at);
    }
  }

  /* ----- Records told apart by a key ----- */

  ghost predicate Distinct<T>(xs: seq<T>, key: T -> string) {
    forall i, j | 0 <= i < j < |xs| :: key(xs[i]) != key(xs[j])
  }

  ghost predicate HasKey<T>(xs: seq<T>, key: T -> string, k: string) {
    exists x :: x in xs && key(x) == k
  }

  ghost predicate Avoids<T>(xs: seq<T>, key: T -> string, k: string) {
    forall i | 0 <= i < |xs| :: key(xs[i]) != k
  }

  lemma ConsAvoids<T>(x: T, xs: seq<T>, key: T -> string, k: string)
    ensures Avoids([x] + xs, key, k) <==> key(x) != k && Avoids(xs, key, k)
  {
    var all := [x] + xs;
    assert all[0] == x;
    assert forall i | 0 <= i < |xs| :: all[i + 1] == xs[i];
  }

  lemma ConsDistinct<T>(x: T, xs: seq<T>, key: T -> string)
    ensures Distinct([x] + xs, key) <==> Avoids(xs, key, key(x)) && Distinct(xs, key)
  {
    var all := [x] + xs;
    assert all[0] == x;
    assert forall i | 0 <= i < |xs| :: all[i + 1] == xs[i];
  }

  lemma {:induction false} InsertAvoids<T>(x: T, ys: seq<T>, before: (T, T) -> bool, key: T -> string, k: string)
    ensures Avoids(Insert(x, ys, before), key, k) <==> key(x) != k && Avoids(ys, key, k)
  {
    if |ys| == 0 || before(x, ys[0]) {
      ConsAvoids(x, ys, key, k);
    } else {
      assert ys == [ys[0]] + ys[1..];
      ConsAvoids(ys[0], ys[1..], key, k);
      InsertAvoids(x, ys[1..], before, key, k);
      ConsAvoids(ys[0], Insert(x, ys[1..], before), key, k);
    }
  }

  lemma {:induction false} InsertDistinct<T>(x: T, ys: seq<T>, before: (T, T) -> bool, key: T -> string)
    ensures Distinct(Insert(x, ys, before), key) <==> Avoids(ys, key, key(x)) && Distinct(ys, key)
  {
    if |ys| == 0 || before(x, ys[0]) {
      ConsDistinct(x, ys, key);
    } else {
      var y, tail := ys[0], ys[1..];
      assert ys == [y] + tail;
      ConsDistinct(y, tail, key);
      ConsAvoids(y, tail, key, key(x));
      InsertDistinct(x, tail, before, key);
      InsertAvoids(x, tail, before, key, key(y));
      ConsDistinct(y, Insert(x, tail, before), key);
    }
  }

  lemma {:induction false} SortedAvoids<T>(xs: seq<T>, before: (T, T) -> bool, key: T -> string, k: string)
    ensures Avoids(Sorted(xs, before), key, k) <==> Avoids(xs, key, k)
  {
    if |xs| > 0 {
      assert xs == [xs[0]] + xs[1..];
      ConsAvoids(xs[0], xs[1..], key, k);
      SortedAvoids(xs[1..], before, key, k);
      InsertAvoids(xs[0], Sorted(xs[1..], before), before, key, k);
    }
  }

  /** Sorting keeps records with distinct keys distinct. */
  lemma {:induction false} SortedDistinct<T>(xs: seq<T>, before: (T, T) -> bool, key: T -> string)
    ensures Distinct(Sorted(xs, before), key) <==> Distinct(xs, key)
  {
    if |xs| > 0 {
      var x, tail := xs[0], xs[1..];
      assert xs == [x] + tail;
      ConsDistinct(x, tail, key);
      SortedDistinct(tail, before, key);
      SortedAvoids(tail, before, key, key(x));
      InsertDistinct(x, Sorted(tail, before), before, key);
    }
  }

  lemma DistinctMembers<T>(xs: seq<T>, key: T -> string, x: T, y: T)
    requires Distinct(xs, key) && x in xs && y in xs && key(x) == key(y)
    ensures x == y
  {
    var i :| 0 <= i < |xs| && xs[i] == x;
    var j :| 0 <= j < |xs| && xs[j] == y;
    assert i == j;
  }

  /** The first record with the key, or -1. */
  function KeyIndex<T>(xs: seq<T>, key: T -> string, k: string): (r: int)
    ensures -1 <= r < |xs|
  {
    KeyIndexFrom(xs, key, k, 0)
  }

  function KeyIndexFrom<T>(xs: seq<T>, key: T -> string, k: string, i: nat): (r: int)
    requires i <= |xs|
    ensures r == -1 || i <= r < |xs|
    decreases |xs| - i
  {
    if i == |xs| then -1 else if key(xs[i]) == k then i else KeyIndexFrom(xs, key, k, i + 1)
  }

  lemma {:induction false} KeyIndexFromFinds<T>(xs: seq<T>, key: T -> string, k: string, i: nat)
    requires i <= |xs|
    ensures var r := KeyIndexFrom(xs, key, k, i);
            && (r >= 0 ==> key(xs[r]) == k && forall j | i <= j < r :: key(xs[j]) != k)
            && (r < 0 ==> forall j | i <= j < |xs| :: key(xs[j]) != k)
    decreases |xs| - i
  {
    if i < |xs| && key(xs[i]) != k {
      KeyIndexFromFinds(xs, key, k, i + 1);
    }
  }

  /** A look-up finds the first record with the key, and finds none exactly when there is none. */
  lemma KeyIndexFinds<T>(xs: seq<T>, key: T -> string, k: string)
    ensures var r := KeyIndex(xs, key, k);
            && (r >= 0 ==> key(xs[r]) == k && forall j | 0 <= j < r :: key(xs[j]) != k)
            && (r < 0 ==> forall j | 0 <= j < |xs| :: key(xs[j]) != k)
            && (r < 0 <==> !HasKey(xs, key, k))
  {
    KeyIndexFromFinds(xs, key, k, 0);
    var r := KeyIndex(xs, key, k);
    if r >= 0 {
      assert xs[r] in xs;
    }
  }

  lemma KeyIndexHas<T>(xs: seq<T>, key: T -> string, k: string)
    ensures KeyIndex(xs, key, k) >= 0 <==> HasKey(xs, key, k)
  {
    KeyIndexFinds(xs, key, k);
  }

  /* ----- Sums over records ----- */

  function Sum<T>(xs: seq<T>, weight: T -> nat): nat {
    if |xs| == 0 then 0 else weight(xs[0]) + Sum(xs[1..], weight)
  }

  lemma {:induction false} SumConcat<T>(a: seq<T>, b: seq<T>, weight: T -> nat)
    ensures Sum(a + b, weight) == Sum(a, weight) + Sum(b, weight)
  {
    if |a| == 0 {
      assert a + b == b;
    } else {
      assert (a + b)[1..] == a[1..] + b;
      SumConcat(a[1..], b, weight);
    }
  }

  lemma SumAt<T>(xs: seq<T>, i: nat, weight: T -> nat)
    requires i < |xs|
    ensures Sum(xs, weight) == Sum(xs[..i], weight) + weight(xs[i]) + Sum(xs[i + 1..], weight)
  {
    SumConcat(xs[..i], xs[i..], weight);
    assert xs == xs[..i] + xs[i..];
    assert xs[i..][1..] == xs[i + 1..];
  }

  lemma SumUpdate<T>(xs: seq<T>, i: nat, x: T, weight: T -> nat)
    requires i < |xs|
    ensures Sum(xs[i := x], weight) + weight(xs[i]) == Sum(xs, weight) + weight(x)
  {
    SumAt(xs, i, weight);
    SumAt(xs[i := x], i, weight);
    assert xs[i := x][..i] == xs[..i] && xs[i := x][i + 1..] == xs[i + 1..];
  }

  lemma RemovedMultiset<T>(xs: seq<T>, k: nat)
    requires k < |xs|
    ensures multiset(xs[..k] + xs[k + 1..]) == multiset(xs) - multiset{xs[k]}
  {
    assert xs == xs[..k] + [xs[k]] + xs[k + 1..];
    assert multiset(xs) == multiset(xs[..k]) + multiset{xs[k]} + multiset(xs[k + 1..]);
  }

  /** A sum does not depend on the order of the records. */
  lemma {:induction false} SumOfPermutation<T>(a: seq<T>, b: seq<T>, weight: T -> nat)
    requires multiset(a) == multiset(b)
    ensures Sum(a, weight) == Sum(b, weight)
  {
    if |a| == 0 {
      PermutationMembers(a, b);
    } else {
      PermutationMembers(a, b);
      assert a[0] in b;
      var k :| 0 <= k < |b| && b[k] == a[0];
      var rest := b[..k] + b[k + 1..];
      TailMultiset(a);
      RemovedMultiset(b, k);
      SumOfPermutation(a[1..], rest, weight);
      SumAt(b, k, weight);
      SumConcat(b[..k], b[k + 1..], weight);
    }
  }

  lemma {:induction false} SumZero<T>(xs: seq<T>, weight: T -> nat)
    requires forall i | 0 <= i < |xs| :: weight(xs[i]) == 0
    ensures Sum(xs, weight) == 0
  {
    if |xs| > 0 {
      SumZero(xs[1..], weight);
    }
  }

  lemma {:induction false} SumSame<T>(xs: seq<T>, v: T -> nat, w: T -> nat)
    requires forall i | 0 <= i < |xs| :: v(xs[i]) == w(xs[i])
    ensures Sum(xs, v) == Sum(xs, w)
  {
    if |xs| > 0 {
      SumSame(xs[1..], v, w);
    }
  }
}
