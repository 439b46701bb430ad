/** Ranking lists: Python's `sorted(xs, key=..., reverse=True)` and the
    `[:n]` cut that the scripts apply to most of their lists. */
module Ranking {

  /** Non-increasing by `key`: what `reverse=True` promises. */
  ghost predicate Descending<T>(xs: seq<T>, key: T -> int) {
    forall i, j :: 0 <= i < j < |xs| ==> key(xs[i]) >= key(xs[j])
  }

  lemma PrependDescending<T>(y: T, rest: seq<T>, key: T -> int)
    requires Descending(rest, key)
    requires forall z | z in rest :: key(z) <= key(y)
    ensures Descending([y] + rest, key)
  {
    var r := [y] + rest;
    forall i, j | 0 <= i < j < |r| ensures key(r[i]) >= key(r[j]) {
      assert r[j] == rest[j - 1];
      if i > 0 {
        assert r[i] == rest[i - 1];
      }
    }
  }

  /** Putting `x` in front of a descending list whose head is not larger
      keeps it descending. */
  lemma PrependLarger<T>(x: T, ys: seq<T>, key: T -> int)
    requires Descending(ys, key)
    requires |ys| == 0 || key(ys[0]) <= key(x)
    ensures Descending([x] + ys, key)
  {
    assert forall z | z in ys :: key(z) <= key(x);
    PrependDescending(x, ys, key);
  }

  /** Putting back the head of `ys` in front of its tail with `x` inserted
      keeps the list descending and holds `ys` and `x`. */
  lemma PrependHead<T>(x: T, ys: seq<T>, rest: seq<T>, key: T -> int)
    requires Descending(ys, key)
    requires |ys| > 0 && key(ys[0]) > key(x)
    requires multiset(rest) == multiset(ys[1..]) + multiset{x}
    requires Descending(rest, key)
    ensures multiset([ys[0]] + rest) == multiset(ys) + multiset{x}
    ensures Descending([ys[0]] + rest, key)
  {
    var tail := ys[1..];
    assert multiset(ys) == multiset{ys[0]} + multiset(tail) by {
      assert ys == [ys[0]] + tail;
    }
    forall z | z in rest ensures key(z) <= key(ys[0]) {
      assert z in multiset(rest);
      if z != x {
        assert z in multiset(tail);
        assert z in tail;
      }
    }
    PrependDescending(ys[0], rest, key);
  }

  /** Places `x` in front of the first element whose key is not larger than
      its own. */
  function InsertDesc<T(==)>(x: T, ys: seq<T>, key: T -> int): (r: seq<T>)
    requires Descending(ys, key)
    ensures multiset(r) == multiset(ys) + multiset{x}
    ensures Descending(r, key)
  {
    if |ys| == 0 || key(ys[0]) <= key(x) then
      PrependLarger(x, ys, key);
      [x] + ys
    else
      assert Descending(ys[1..], key);
      var rest := InsertDesc(x, ys[1..], key);
      PrependHead(x, ys, rest, key);
      [ys[0]] + rest
  }

  /** Stable sort by `key`, largest first: every element keeps its place
      relative to the later elements with the same key, as Python's `sorted`
      with `reverse=True` does. */
  function SortDesc<T(==)>(xs: seq<T>, key: T -> int): (r: seq<T>)
    ensures multiset(r) == multiset(xs)
    ensures Descending(r, key)
  {
    if |xs| == 0 then []
    else
      assert xs == [xs[0]] + xs[1..];
      InsertDesc(xs[0], SortDesc(xs[1..], key), key)
  }

  /** `xs[:n]`. */
  function Take<T>(xs: seq<T>, n: nat): (r: seq<T>)
    ensures |r| <= n && |r| <= |xs|
    ensures r == xs[..|r|]
    ensures |r| == n || r == xs
  {
    if |xs| <= n then xs else xs[..n]
  }

  /** Cutting a descending list keeps it descending. */
  lemma TakeDescending<T>(xs: seq<T>, n: nat, key: T -> int)
    requires Descending(xs, key)
    ensures Descending(Take(xs, n), key)
  {
  }

  /** Cutting a list whose elements `f` tells apart keeps them apart. */
  lemma TakeUnique<T, K>(xs: seq<T>, n: nat, f: T -> K)
    requires Unique(xs, f)
    ensures Unique(Take(xs, n), f)
  {
  }

  /** `[h(x) for x in xs]`. */
  function Mapped<T, U>(xs: seq<T>, h: T -> U): (r: seq<U>)
    ensures |r| == |xs|
    ensures forall i :: 0 <= i < |xs| ==> r[i] == h(xs[i])
  {
    if |xs| == 0 then [] else [h(xs[0])] + Mapped(xs[1..], h)
  }

  lemma MappedSnoc<T, U>(xs: seq<T>, x: T, h: T -> U)
    ensures Mapped(xs + [x], h) == Mapped(xs, h) + [h(x)]
  {
    var a, b := Mapped(xs + [x], h), Mapped(xs, h) + [h(x)];
    assert |a| == |b|;
    forall i | 0 <= i < |a| ensures a[i] == b[i] {
      if i < |xs| {
        assert (xs + [x])[i] == xs[i];
      }
    }
  }

  /** One more step of a loop that builds `Mapped(xs, h)` element by element. */
  lemma MappedStep<T, U>(xs: seq<T>, k: nat, h: T -> U, y: U)
    requires k < |xs| && y == h(xs[k])
    ensures Mapped(xs[..k + 1], h) == Mapped(xs[..k], h) + [y]
  {
    assert xs[..k + 1] == xs[..k] + [xs[k]];
    MappedSnoc(xs[..k], xs[k], h);
  }

  /** The image of a concatenation is the concatenation of the images. */
  lemma MappedConcat<T, U>(xs: seq<T>, ys: seq<T>, h: T -> U)
    ensures Mapped(xs + ys, h) == Mapped(xs, h) + Mapped(ys, h)
  {
    var a, b := Mapped(xs + ys, h), Mapped(xs, h) + Mapped(ys, h);
    assert |a| == |b|;
    forall i | 0 <= i < |a| ensures a[i] == b[i] {
      assert a[i] == h((xs + ys)[i]);
      if i < |xs| {
        assert (xs + ys)[i] == xs[i] && b[i] == Mapped(xs, h)[i];
      } else {
        assert (xs + ys)[i] == ys[i - |xs|] && b[i] == Mapped(ys, h)[i - |xs|];
      }
    }
  }

  /** Where a list begins with `pre + ms`, its image holds the image of `ms`
      right after the image of `pre`. */
  lemma MappedSlice<T, U>(xs: seq<T>, pre: seq<T>, ms: seq<T>, h: T -> U)
    requires |pre| + |ms| <= |xs| && xs[..|pre| + |ms|] == pre + ms
    ensures Mapped(xs, h)[|pre|..|pre| + |ms|] == Mapped(ms, h)
  {
    var a, b := Mapped(xs, h)[|pre|..|pre| + |ms|], Mapped(ms, h);
    forall i | 0 <= i < |ms| ensures a[i] == b[i] {
      assert xs[|pre| + i] == (pre + ms)[|pre| + i];
    }
  }

  /** Every element of a mapped list is the image of an element of the list,
      at the same place. */
  lemma MappedMembers<T, U>(xs: seq<T>, h: T -> U)
    ensures forall y | y in Mapped(xs, h) :: exists i | 0 <= i < |xs| :: y == h(xs[i])
  {
    var ys := Mapped(xs, h);
    forall y | y in ys ensures exists i | 0 <= i < |xs| :: y == h(xs[i]) {
      var i :| 0 <= i < |ys| && ys[i] == y;
    }
  }

  /** A map that carries key `k` over to key `k2` keeps a list's order,
      its uniqueness under a second pair of keys, and its set of keys. */
  lemma MappedKeys<T, U, K>(xs: seq<T>, h: T -> U, k: T -> int, k2: U -> int, id: T -> K, id2: U -> K)
    requires forall x | x in xs :: k2(h(x)) == k(x) && id2(h(x)) == id(x)
    ensures Descending(xs, k) ==> Descending(Mapped(xs, h), k2)
    ensures Unique(xs, id) ==> Unique(Mapped(xs, h), id2)
    ensures (set y | y in Mapped(xs, h) :: id2(y)) == (set x | x in xs :: id(x))
  {
    MappedOrder(xs, h, k, k2, id, id2);
    MappedKeySet(xs, h, id, id2);
  }

  lemma MappedOrder<T, U, K>(xs: seq<T>, h: T -> U, k: T -> int, k2: U -> int, id: T -> K, id2: U -> K)
    requires forall x | x in xs :: k2(h(x)) == k(x) && id2(h(x)) == id(x)
    ensures Descending(xs, k) ==> Descending(Mapped(xs, h), k2)
    ensures Unique(xs, id) ==> Unique(Mapped(xs, h), id2)
  {
    var ys := Mapped(xs, h);
    assert forall i | 0 <= i < |xs| :: k2(ys[i]) == k(xs[i]) && id2(ys[i]) == id(xs[i]) by {
      forall i | 0 <= i < |xs| ensures k2(ys[i]) == k(xs[i]) && id2(ys[i]) == id(xs[i]) {
        assert xs[i] in xs;
      }
    }
  }

  lemma MappedKeySet<T, U, K>(xs: seq<T>, h: T -> U, id: T -> K, id2: U -> K)
    requires forall x | x in xs :: id2(h(x)) == id(x)
    ensures (set y | y in Mapped(xs, h) :: id2(y)) == (set x | x in xs :: id(x))
  {
    var ys := Mapped(xs, h);
    forall y | y in ys ensures id2(y) in (set x | x in xs :: id(x)) {
      var i :| 0 <= i < |ys| && ys[i] == y;
      assert xs[i] in xs;
    }
    forall x | x in xs ensures id(x) in (set y | y in ys :: id2(y)) {
      var i :| 0 <= i < |xs| && xs[i] == x;
      assert ys[i] in ys;
    }
  }

  /** Reordering a list keeps its set of keys. */
  lemma PermutationKeys<T, K>(xs: seq<T>, ys: seq<T>, id: T -> K)
    requires multiset(xs) == multiset(ys)
    ensures (set x | x in xs :: id(x)) == (set y | y in ys :: id(y))
  {
    forall x | x in xs ensures id(x) in (set y | y in ys :: id(y)) {
      assert x in multiset(ys);
      assert x in ys;
    }
    forall y | y in ys ensures id(y) in (set x | x in xs :: id(x)) {
      assert y in multiset(xs);
      assert y in xs;
    }
  }

  lemma MappedCons<T, U>(x: T, xs: seq<T>, h: T -> U)
    ensures Mapped([x] + xs, h) == [h(x)] + Mapped(xs, h)
  {
    assert ([x] + xs)[1..] == xs;
  }

  /** A map that keeps every key keeps a list descending. */
  lemma MappedDescending<T>(xs: seq<T>, h: T -> T, key: T -> int)
    requires Descending(xs, key)
    requires forall x :: key(h(x)) == key(x)
    ensures Descending(Mapped(xs, h), key)
  {
  }

  /** Where `x` goes in front. */
  lemma InsertFront<T>(x: T, ys: seq<T>, key: T -> int)
    requires Descending(ys, key)
    requires |ys| == 0 || key(ys[0]) <= key(x)
    ensures InsertDesc(x, ys, key) == [x] + ys
  {
  }

  /** Where `x` goes behind the head. */
  lemma InsertBehind<T>(x: T, ys: seq<T>, key: T -> int)
    requires Descending(ys, key)
    requires |ys| > 0 && key(ys[0]) > key(x)
    ensures Descending(ys[1..], key)
    ensures InsertDesc(x, ys, key) == [ys[0]] + InsertDesc(x, ys[1..], key)
  {
  }

  lemma MappedInsertFront<T>(x: T, ys: seq<T>, h: T -> T, key: T -> int)
    requires Descending(ys, key) && Descending(Mapped(ys, h), key)
    requires forall x :: key(h(x)) == key(x)
    requires |ys| == 0 || key(ys[0]) <= key(x)
    ensures Mapped(InsertDesc(x, ys, key), h) == InsertDesc(h(x), Mapped(ys, h), key)
  {
    InsertFront(x, ys, key);
    MappedCons(x, ys, h);
    if |ys| > 0 {
      MappedHead(ys, h);
    }
    InsertFront(h(x), Mapped(ys, h), key);
  }

  lemma MappedInsertBehind<T>(x: T, ys: seq<T>, h: T -> T, key: T -> int)
    requires Descending(ys, key) && Descending(Mapped(ys, h), key)
    requires forall x :: key(h(x)) == key(x)
    requires |ys| > 0 && key(ys[0]) > key(x)
    requires Mapped(InsertDesc(x, ys[1..], key), h) == InsertDesc(h(x), Mapped(ys[1..], h), key)
    ensures Mapped(InsertDesc(x, ys, key), h) == InsertDesc(h(x), Mapped(ys, h), key)
  {
    InsertBehind(x, ys, key);
    MappedCons(ys[0], InsertDesc(x, ys[1..], key), h);
    MappedHead(ys, h);
    InsertBehind(h(x), Mapped(ys, h), key);
  }

  /** The head and the tail of a mapped list. */
  lemma MappedHead<T, U>(xs: seq<T>, h: T -> U)
    requires |xs| > 0
    ensures Mapped(xs, h) == [h(xs[0])] + Mapped(xs[1..], h)
  {
  }

  /** A map that keeps every key commutes with inserting in place. */
  lemma {:induction false} MappedInsert<T>(x: T, ys: seq<T>, h: T -> T, key: T -> int)
    requires Descending(ys, key)
    requires forall x :: key(h(x)) == key(x)
    ensures Descending(Mapped(ys, h), key)
    ensures Mapped(InsertDesc(x, ys, key), h) == InsertDesc(h(x), Mapped(ys, h), key)
  {
    MappedDescending(ys, h, key);
    if |ys| == 0 || key(ys[0]) <= key(x) {
      MappedInsertFront(x, ys, h, key);
    } else {
      InsertBehind(x, ys, key);
      MappedInsert(x, ys[1..], h, key);
      MappedInsertBehind(x, ys, h, key);
    }
  }

  /** Sorting inserts the head into the sorted tail. */
  lemma SortHead<T>(xs: seq<T>, key: T -> int)
    requires |xs| > 0
    ensures SortDesc(xs, key) == InsertDesc(xs[0], SortDesc(xs[1..], key), key)
  {
  }

  /** A map that keeps every key commutes with sorting by it. */
  lemma {:induction false} MappedSort<T>(xs: seq<T>, h: T -> T, key: T -> int)
    requires forall x :: key(h(x)) == key(x)
    ensures Mapped(SortDesc(xs, key), h) == SortDesc(Mapped(xs, h), key)
  {
    if |xs| > 0 {
      var tail, mxs := xs[1..], Mapped(xs, h);
      var sorted := SortDesc(tail, key);
      MappedSort(tail, h, key);
      MappedInsert(xs[0], sorted, h, key);
      SortHead(xs, key);
      assert mxs[0] == h(xs[0]) && mxs[1..] == Mapped(tail, h);
      SortHead(mxs, key);
    }
  }

  /** Sum of `f` over a list. */
  function SumBy<T>(xs: seq<T>, f: T -> int): int {
    if |xs| == 0 then 0 else f(xs[0]) + SumBy(xs[1..], f)
  }

  lemma {:induction false} SumByAppend<T>(xs: seq<T>, ys: seq<T>, f: T -> int)
    ensures SumBy(xs + ys, f) == SumBy(xs, f) + SumBy(ys, f)
  {
    if |xs| == 0 {
      assert xs + ys == ys;
    } else {
      assert (xs + ys)[0] == xs[0];
      assert (xs + ys)[1..] == xs[1..] + ys;
      SumByAppend(xs[1..], ys, f);
    }
  }

  /** Each element counts once. */
  function One<T>(x: T): int { 1 }

  /** A sum of ones counts the list. */
  lemma {:induction false} SumByOnes<T>(xs: seq<T>, f: T -> int)
    requires forall x | x in xs :: f(x) == 1
    ensures SumBy(xs, f) == |xs|
  {
    if |xs| > 0 {
      assert forall x | x in xs[1..] :: x in xs;
      SumByOnes(xs[1..], f);
    }
  }

  /** Reordering a list does not change a sum over it; in particular sorting
      does not. */
  lemma {:induction false} SumByPermutation<T>(xs: seq<T>, ys: seq<T>, f: T -> int)
    requires multiset(xs) == multiset(ys)
    ensures SumBy(xs, f) == SumBy(ys, f)
    decreases |xs|
  {
    if |xs| == 0 {
      assert |ys| == |multiset(ys)| == 0;
    } else {
      var j := Occurrence(ys, xs[0]);
      RemoveAt(ys, j);
      DropFirst(xs);
      SumByPermutation(xs[1..], ys[..j] + ys[j + 1..], f);
      SumByAt(ys, j, f);
    }
  }

  /** A position where `x` occurs in `ys`. */
  lemma Occurrence<T>(ys: seq<T>, x: T) returns (j: nat)
    requires x in multiset(ys)
    ensures j < |ys| && ys[j] == x
  {
    assert x in ys;
    j :| 0 <= j < |ys| && ys[j] == x;
  }

  /** Dropping the head takes one copy of it out of the multiset. */
  lemma DropFirst<T>(xs: seq<T>)
    requires |xs| > 0
    ensures multiset(xs[1..]) == multiset(xs) - multiset{xs[0]}
  {
    assert xs == [xs[0]] + xs[1..];
  }

  /** A sum over a list is the element at `j` plus the sum over the rest. */
  lemma SumByAt<T>(ys: seq<T>, j: nat, f: T -> int)
    requires j < |ys|
    ensures SumBy(ys, f) == f(ys[j]) + SumBy(ys[..j] + ys[j + 1..], f)
  {
    var x := ys[j];
    assert ys == ys[..j] + ([x] + ys[j + 1..]);
    SumByAppend(ys[..j], [x] + ys[j + 1..], f);
    SumByAppend(ys[..j], ys[j + 1..], f);
    assert SumBy([x] + ys[j + 1..], f) == f(x) + SumBy(ys[j + 1..], f) by {
      assert ([x] + ys[j + 1..])[1..] == ys[j + 1..];
    }
  }

  /** Reordering a list keeps its elements. */
  lemma PermutationMembers<T>(xs: seq<T>, ys: seq<T>)
    requires multiset(xs) == multiset(ys)
    ensures forall x :: x in xs <==> x in ys
  {
    forall x ensures x in xs <==> x in ys {
      assert x in xs <==> x in multiset(xs);
      assert x in ys <==> x in multiset(ys);
    }
  }

  /** `f` tells the elements of `xs` apart. */
  ghost predicate Unique<T, K>(xs: seq<T>, f: T -> K) {
    forall i, j :: 0 <= i < j < |xs| ==> f(xs[i]) != f(xs[j])
  }

  lemma {:induction false} UniqueOnce<T, K>(xs: seq<T>, f: T -> K, x: T)
    requires Unique(xs, f)
    ensures multiset(xs)[x] <= 1
  {
    if |xs| > 0 {
      assert xs == [xs[0]] + xs[1..];
      UniqueOnce(xs[1..], f, x);
      if xs[0] == x {
        assert x !in xs[1..];
      }
    }
  }

  /** Removing the element at `j` takes one copy of it out of the multiset. */
  lemma RemoveAt<T>(ys: seq<T>, j: nat)
    requires j < |ys|
    ensures ys == ys[..j] + [ys[j]] + ys[j + 1..]
    ensures multiset(ys[..j] + ys[j + 1..]) == multiset(ys) - multiset{ys[j]}
  {
    assert ys == ys[..j] + [ys[j]] + ys[j + 1..];
    assert multiset(ys) == multiset(ys[..j]) + multiset{ys[j]} + multiset(ys[j + 1..]);
  }

  lemma UniqueInsert<T, K>(rest: seq<T>, x: T, j: nat, f: T -> K)
    requires j <= |rest|
    requires Unique(rest, f)
    requires forall z | z in rest :: f(z) != f(x)
    ensures Unique(rest[..j] + [x] + rest[j..], f)
  {
    var ys := rest[..j] + [x] + rest[j..];
    forall a, b | 0 <= a < b < |ys| ensures f(ys[a]) != f(ys[b]) {
      var ra := if a < j then a else a - 1;
      var rb := if b < j then b else b - 1;
      if a == j {
        assert ys[b] == rest[rb];
      } else if b == j {
        assert ys[a] == rest[ra];
      } else {
        assert ys[a] == rest[ra] && ys[b] == rest[rb] && ra < rb;
      }
    }
  }

  lemma UniqueHead<T, K>(xs: seq<T>, f: T -> K)
    requires |xs| > 0 && Unique(xs, f)
    ensures forall z | z in multiset(xs[1..]) :: f(z) != f(xs[0])
  {
    forall z | z in multiset(xs[1..]) ensures f(z) != f(xs[0]) {
      var k :| 0 <= k < |xs[1..]| && xs[1..][k] == z;
      assert xs[k + 1] == z;
    }
  }

  /** Reordering a list whose elements `f` tells apart keeps them apart: a
      sorted grouping still has one entry per key. */
  lemma {:induction false} UniquePermutation<T, K>(xs: seq<T>, ys: seq<T>, f: T -> K)
    requires multiset(xs) == multiset(ys)
    requires Unique(xs, f)
    ensures Unique(ys, f)
    decreases |xs|
  {
    if |xs| == 0 {
      assert |ys| == |multiset(ys)| == 0;
    } else {
      var x := xs[0];
      assert x in multiset(ys);
      var j0 :| 0 <= j0 < |ys| && ys[j0] == x;
      var rest := ys[..j0] + ys[j0 + 1..];
      RemoveMatching(xs, ys, j0);
      UniqueTail(xs, f);
      UniquePermutation(xs[1..], rest, f);
      PutBack(xs, ys, j0, f);
    }
  }

  /** Taking the head of `xs` out of `ys` leaves the tail of `xs`, up to order. */
  lemma RemoveMatching<T>(xs: seq<T>, ys: seq<T>, j0: nat)
    requires multiset(xs) == multiset(ys)
    requires |xs| > 0 && j0 < |ys| && ys[j0] == xs[0]
    ensures multiset(ys[..j0] + ys[j0 + 1..]) == multiset(xs[1..])
  {
    RemoveAt(ys, j0);
    RemoveAt(xs, 0);
    assert xs[..0] + xs[1..] == xs[1..];
  }

  lemma UniqueTail<T, K>(xs: seq<T>, f: T -> K)
    requires |xs| > 0 && Unique(xs, f)
    ensures Unique(xs[1..], f)
  {
    var t := xs[1..];
    forall i, j | 0 <= i < j < |t| ensures f(t[i]) != f(t[j]) {
      assert t[i] == xs[i + 1] && t[j] == xs[j + 1];
    }
  }

  /** Putting the head of `xs` back where it sits in `ys` keeps the keys
      apart. */
  lemma PutBack<T, K>(xs: seq<T>, ys: seq<T>, j0: nat, f: T -> K)
    requires |xs| > 0 && Unique(xs, f)
    requires j0 < |ys| && ys[j0] == xs[0]
    requires multiset(ys[..j0] + ys[j0 + 1..]) == multiset(xs[1..])
    requires Unique(ys[..j0] + ys[j0 + 1..], f)
    ensures Unique(ys, f)
  {
    var x, rest := xs[0], ys[..j0] + ys[j0 + 1..];
    UniqueHead(xs, f);
    forall z | z in rest ensures f(z) != f(x) {
      assert z in multiset(rest);
    }
    RemoveAt(ys, j0);
    assert rest[..j0] == ys[..j0] && rest[j0..] == ys[j0 + 1..];
    UniqueInsert(rest, x, j0, f);
  }

  /** Summing a figure a map keeps. */
  lemma {:induction false} MappedSum<T, U>(xs: seq<T>, h: T -> U, f: T -> int, g: U -> int)
    requires forall x | x in xs :: g(h(x)) == f(x)
    ensures SumBy(Mapped(xs, h), g) == SumBy(xs, f)
  {
    if |xs| > 0 {
      assert forall x | x in xs[1..] :: x in xs;
      MappedSum(xs[1..], h, f, g);
      assert Mapped(xs, h)[1..] == Mapped(xs[1..], h);
    }
  }

  /** A permutation of a mapped list has the keys of the original list, when
      the map carries key `id` over to key `id2`. */
  lemma PermutedMapKeys<T, U, K>(xs: seq<T>, h: T -> U, ys: seq<U>, id: T -> K, id2: U -> K, keys: set<K>)
    requires multiset(ys) == multiset(Mapped(xs, h))
    requires forall x | x in xs :: id2(h(x)) == id(x)
    requires forall x | x in xs :: id(x) in keys
    requires forall k | k in keys :: exists x | x in xs :: id(x) == k
    ensures forall y | y in ys :: id2(y) in keys
    ensures forall k | k in keys :: exists y | y in ys :: id2(y) == k
  {
    var ms := Mapped(xs, h);
    forall y | y in ys ensures id2(y) in keys {
      assert y in multiset(ms);
      var i :| 0 <= i < |ms| && ms[i] == y;
      assert xs[i] in xs;
    }
    forall k | k in keys ensures exists y | y in ys :: id2(y) == k {
      var x :| x in xs && id(x) == k;
      var i :| 0 <= i < |xs| && xs[i] == x;
      assert ms[i] in multiset(ys);
      assert ms[i] in ys;
    }
  }

  /** The keys of `ys` are `keys` when each key of `ys` is in `keys` and each
      of `keys` is the key of an element. */
  lemma KeysCovered<U, K>(ys: seq<U>, id2: U -> K, keys: set<K>)
    requires forall y | y in ys :: id2(y) in keys
    requires forall k | k in keys :: exists y | y in ys :: id2(y) == k
    ensures (set y | y in ys :: id2(y)) == keys
  {
    var a := set y | y in ys :: id2(y);
    forall k | k in keys ensures k in a {
      var y :| y in ys && id2(y) == k;
    }
  }

  /** A list whose elements `id` tells apart has as many distinct keys as
      elements. */
  lemma {:induction false} UniqueCard<T, K>(xs: seq<T>, id: T -> K)
    requires Unique(xs, id)
    ensures |set x | x in xs :: id(x)| == |xs|
  {
    if |xs| > 0 {
      var n := |xs| - 1;
      var front, last := xs[..n], xs[n];
      assert Unique(front, id);
      UniqueCard(front, id);
      var a := set x | x in front :: id(x);
      assert id(last) !in a;
      ImagesSnoc(xs, id);
      assert (set x | x in xs :: id(x)) == a + {id(last)};
    }
  }

  /** The keys of a list are those of all but its last element, and the last
      one's. */
  lemma ImagesSnoc<T, K>(xs: seq<T>, id: T -> K)
    requires |xs| > 0
    ensures (set x | x in xs :: id(x)) == (set x | x in xs[..|xs| - 1] :: id(x)) + {id(xs[|xs| - 1])}
  {
    var n := |xs| - 1;
    var front := xs[..n];
    assert xs == front + [xs[n]];
    var a, b := set x | x in front :: id(x), set x | x in xs :: id(x);
    forall k | k in b ensures k in a + {id(xs[n])} {
      var x :| x in xs && id(x) == k;
      if x != xs[n] {
        assert x in front;
      }
    }
    forall k | k in a ensures k in b {
      var x :| x in front && id(x) == k;
      assert x in xs;
    }
    assert xs[n] in xs;
  }

  /** The same, for a set given as the keys of the list. */
  lemma UniqueCount<T, K>(xs: seq<T>, id: T -> K, keys: set<K>)
    requires Unique(xs, id)
    requires forall x | x in xs :: id(x) in keys
    requires forall k | k in keys :: exists x | x in xs :: id(x) == k
    ensures |keys| == |xs|
  {
    UniqueCard(xs, id);
    var b := set x | x in xs :: id(x);
    forall k | k in keys ensures k in b {
      var x :| x in xs && id(x) == k;
    }
    assert keys == b;
  }

  /** The first `n` of a list sorted largest first are its top `n`: an
      element left out is no larger than any element kept. */
  lemma TakeTop<T>(xs: seq<T>, n: nat, key: T -> int)
    requires Descending(xs, key)
    ensures forall v, w | v in xs && w in Take(xs, n) :: v in Take(xs, n) || key(v) <= key(w)
  {
    var ts := Take(xs, n);
    forall v, w | v in xs && w in ts ensures v in ts || key(v) <= key(w) {
      var j :| 0 <= j < |xs| && xs[j] == v;
      var i :| 0 <= i < |ts| && ts[i] == w;
      assert w == xs[i];
      if j < |ts| {
        assert v == ts[j];
      }
    }
  }
}
