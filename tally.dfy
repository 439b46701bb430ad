/** Grouping dictionaries.

    Every aggregator of the data-preparation scripts walks its rows once and,
    for each row, does `if key not in d: d[key] = {zeros}` followed by
    `d[key][counter] += ...` and `d[key][total] += ...`.  This module states
    what such a dictionary holds once the walk is over, and carries out the
    walk itself (`Accumulate`).

    A row is described by the `Entry` it contributes: the key of its bucket,
    what it adds to the bucket's counter (`count`, usually 1) and what it adds
    to the bucket's running total (`sum`: a quantity or a revenue). */
module Tally {

  import opened Ranking

  datatype Entry<K> = Entry(key: K, count: int, sum: int)

  /** One bucket of a finished dictionary. */
  datatype Group<K> = Group(key: K, count: int, sum: int)

  /** Which of the two running figures of a bucket is meant. */
  datatype Measure = Count | Sum

  function Of<K(==)>(e: Entry<K>, m: Measure): int {
    if m.Count? then e.count else e.sum
  }

  /** What the bucket of key `k` holds for measure `m` after all of `es`. */
  function For<K(==)>(es: seq<Entry<K>>, k: K, m: Measure): int {
    if |es| == 0 then 0
    else For(es[..|es| - 1], k, m) + (if es[|es| - 1].key == k then Of(es[|es| - 1], m) else 0)
  }

  /** What all buckets together hold for measure `m`. */
  function Total<K(==)>(es: seq<Entry<K>>, m: Measure): int {
    if |es| == 0 then 0 else Total(es[..|es| - 1], m) + Of(es[|es| - 1], m)
  }

  /** The keys that have a bucket. */
  function KeySet<K(==)>(es: seq<Entry<K>>): set<K> {
    set e | e in es :: e.key
  }

  predicate Distinct<T(==)>(s: seq<T>) {
    forall i, j :: 0 <= i < j < |s| ==> s[i] != s[j]
  }

  /** The keys of the dictionary in its iteration order: the order in which
      each key was first met. */
  function Keys<K(==)>(es: seq<Entry<K>>): (ks: seq<K>)
    ensures Distinct(ks)
    ensures forall k | k in ks :: k in KeySet(es)
    ensures forall k | k in KeySet(es) :: k in ks
  {
    if |es| == 0 then []
    else
      var front := es[..|es| - 1];
      var ks := Keys(front);
      assert forall e :: e in front ==> e in es;
      assert KeySet(es) == KeySet(front) + {es[|es| - 1].key};
      if es[|es| - 1].key in ks then ks else ks + [es[|es| - 1].key]
  }

  /** The sum, over the keys `ks`, of what each key's bucket holds. */
  function OverKeys<K(==)>(ks: seq<K>, es: seq<Entry<K>>, m: Measure): int {
    if |ks| == 0 then 0 else For(es, ks[0], m) + OverKeys(ks[1..], es, m)
  }

  /** The entries whose pair key has first component `k1`, re-keyed by the
      second component: the inner dictionary of a dictionary of dictionaries. */
  function Inner<K1(==), K2(==)>(es: seq<Entry<(K1, K2)>>, k1: K1): seq<Entry<K2>> {
    if |es| == 0 then []
    else
      var e := es[|es| - 1];
      Inner(es[..|es| - 1], k1) + (if e.key.0 == k1 then [Entry(e.key.1, e.count, e.sum)] else [])
  }

  /** The entries re-keyed by the first component of their pair key: the outer
      dictionary of a dictionary of dictionaries. */
  function Outer<K1(==), K2(==)>(es: seq<Entry<(K1, K2)>>): seq<Entry<K1>> {
    if |es| == 0 then []
    else
      var e := es[|es| - 1];
      Outer(es[..|es| - 1]) + [Entry(e.key.0, e.count, e.sum)]
  }

  // ---------------------------------------------------------------------------
  // Facts about buckets

  lemma {:induction false} ForAppend<K>(es: seq<Entry<K>>, e: Entry<K>, k: K, m: Measure)
    ensures For(es + [e], k, m) == For(es, k, m) + (if e.key == k then Of(e, m) else 0)
  {
    assert (es + [e])[..|es|] == es;
  }

  lemma {:induction false} TotalAppend<K>(es: seq<Entry<K>>, e: Entry<K>, m: Measure)
    ensures Total(es + [e], m) == Total(es, m) + Of(e, m)
  {
    assert (es + [e])[..|es|] == es;
  }

  /** A key without a bucket holds nothing. */
  lemma {:induction false} ForAbsent<K>(es: seq<Entry<K>>, k: K, m: Measure)
    requires k !in KeySet(es)
    ensures For(es, k, m) == 0
  {
    if |es| > 0 {
      var front := es[..|es| - 1];
      assert forall e :: e in front ==> e in es;
      ForAbsent(front, k, m);
    }
  }

  lemma {:induction false} OverKeysAppendEntry<K>(ks: seq<K>, es: seq<Entry<K>>, e: Entry<K>, m: Measure)
    requires Distinct(ks)
    ensures OverKeys(ks, es + [e], m) == OverKeys(ks, es, m) + (if e.key in ks then Of(e, m) else 0)
  {
    if |ks| > 0 {
      ForAppend(es, e, ks[0], m);
      assert Distinct(ks[1..]);
      OverKeysAppendEntry(ks[1..], es, e, m);
      assert e.key in ks <==> e.key == ks[0] || e.key in ks[1..];
    }
  }

  function RemoveKey<K(==)>(ks: seq<K>, k: K): (r: seq<K>)
    requires Distinct(ks)
    ensures Distinct(r)
    ensures forall x | x in r :: x in ks && x != k
    ensures forall x | x in ks && x != k :: x in r
  {
    if |ks| == 0 then []
    else if ks[0] == k then ks[1..]
    else
      assert Distinct(ks[1..]);
      assert ks[0] !in ks[1..];
      [ks[0]] + RemoveKey(ks[1..], k)
  }

  lemma {:induction false} OverKeysRemove<K>(ks: seq<K>, k: K, es: seq<Entry<K>>, m: Measure)
    requires Distinct(ks) && k in ks
    ensures OverKeys(ks, es, m) == OverKeys(RemoveKey(ks, k), es, m) + For(es, k, m)
  {
    if ks[0] != k {
      OverKeysRemove(ks[1..], k, es, m);
    }
  }

  lemma {:induction false} OverKeysOfNothing<K>(ks: seq<K>, es: seq<Entry<K>>, m: Measure)
    requires |es| == 0
    ensures OverKeys(ks, es, m) == 0
  {
    if |ks| > 0 {
      OverKeysOfNothing(ks[1..], es, m);
    }
  }

  /** Summing the buckets over any duplicate-free list of exactly the keys that
      have a bucket gives the total over all entries: nothing is lost and
      nothing counted twice by the grouping. */
  lemma {:induction false} OverAllKeys<K>(ks: seq<K>, es: seq<Entry<K>>, m: Measure)
    requires Distinct(ks)
    requires forall k :: k in ks <==> k in KeySet(es)
    ensures OverKeys(ks, es, m) == Total(es, m)
    decreases |es|
  {
    if |es| == 0 {
      OverKeysOfNothing(ks, es, m);
    } else {
      var n := |es| - 1;
      var front, e := es[..n], es[n];
      assert es == front + [e];
      assert KeySet(es) == KeySet(front) + {e.key} by {
        assert forall x :: x in front ==> x in es;
      }
      OverKeysAppendEntry(ks, front, e, m);
      TotalAppend(front, e, m);
      if e.key in KeySet(front) {
        OverAllKeys(ks, front, m);
      } else {
        OverKeysRemove(ks, e.key, front, m);
        ForAbsent(front, e.key, m);
        OverAllKeys(RemoveKey(ks, e.key), front, m);
      }
    }
  }

  /** The outer bucket of `k1` holds what the whole inner dictionary of `k1` holds. */
  lemma {:induction false} InnerTotal<K1, K2>(es: seq<Entry<(K1, K2)>>, k1: K1, m: Measure)
    ensures Total(Inner(es, k1), m) == For(Outer(es), k1, m)
  {
    if |es| > 0 {
      var n := |es| - 1;
      var e := es[n];
      InnerTotal(es[..n], k1, m);
      var ie := Entry(e.key.1, e.count, e.sum);
      if e.key.0 == k1 {
        TotalAppend(Inner(es[..n], k1), ie, m);
      } else {
        assert Inner(es, k1) == Inner(es[..n], k1);
      }
      ForAppend(Outer(es[..n]), Entry(e.key.0, e.count, e.sum), k1, m);
    }
  }

  lemma {:induction false} InnerKeySet<K1, K2>(es: seq<Entry<(K1, K2)>>, k1: K1)
    ensures forall k2 :: k2 in KeySet(Inner(es, k1)) <==> (k1, k2) in KeySet(es)
  {
    if |es| > 0 {
      var n := |es| - 1;
      InnerKeySet(es[..n], k1);
      assert forall x :: x in es[..n] ==> x in es;
      assert KeySet(es) == KeySet(es[..n]) + {es[n].key};
      var e := es[n];
      if e.key.0 == k1 {
        assert KeySet(Inner(es, k1)) == KeySet(Inner(es[..n], k1)) + {e.key.1} by {
          var a, b := Inner(es[..n], k1), [Entry(e.key.1, e.count, e.sum)];
          assert Inner(es, k1) == a + b;
          assert forall x :: x in a + b <==> x in a || x in b;
        }
      }
    }
  }

  lemma {:induction false} OuterKeySet<K1, K2>(es: seq<Entry<(K1, K2)>>)
    ensures forall k1 :: k1 in KeySet(Outer(es)) <==> exists k2 :: (k1, k2) in KeySet(es)
  {
    if |es| > 0 {
      var n := |es| - 1;
      OuterKeySet(es[..n]);
      assert forall x :: x in es[..n] ==> x in es;
      assert KeySet(es) == KeySet(es[..n]) + {es[n].key};
      var e := es[n];
      var a, b := Outer(es[..n]), [Entry(e.key.0, e.count, e.sum)];
      assert Outer(es) == a + b;
      assert forall x :: x in a + b <==> x in a || x in b;
      assert KeySet(Outer(es)) == KeySet(a) + {e.key.0};
    }
  }

  /** A duplicate-free list has as many elements as the set of its elements. */
  lemma {:induction false} DistinctCard<T>(s: seq<T>)
    requires Distinct(s)
    ensures |set x | x in s| == |s|
  {
    if |s| > 0 {
      var n := |s| - 1;
      assert Distinct(s[..n]);
      DistinctCard(s[..n]);
      assert (set x | x in s) == (set x | x in s[..n]) + {s[n]};
      assert s[n] !in s[..n];
    }
  }

  // ---------------------------------------------------------------------------
  // The finished dictionary

  function KeyOf<K>(g: Group<K>): K { g.key }
  function CountOf<K>(g: Group<K>): int { g.count }
  function SumOf<K>(g: Group<K>): int { g.sum }

  /** `g` is the bucket the walk over `es` leaves for its key. */
  predicate BucketOf<K(==)>(g: Group<K>, es: seq<Entry<K>>) {
    g.key in KeySet(es) && g.count == For(es, g.key, Count) && g.sum == For(es, g.key, Sum)
  }

  /** The buckets of the keys `ks`, in that order. */
  function GroupsFor<K(==)>(ks: seq<K>, es: seq<Entry<K>>): (gs: seq<Group<K>>)
    ensures |gs| == |ks|
    ensures forall i :: 0 <= i < |ks| ==> gs[i] == Group(ks[i], For(es, ks[i], Count), For(es, ks[i], Sum))
  {
    if |ks| == 0 then [] else [Group(ks[0], For(es, ks[0], Count), For(es, ks[0], Sum))] + GroupsFor(ks[1..], es)
  }

  /** `d.values()` once the walk over `es` is over: one bucket per key, in the
      order the keys were first met. */
  function Buckets<K(==)>(es: seq<Entry<K>>): seq<Group<K>> {
    GroupsFor(Keys(es), es)
  }

  /** `sorted(d.values(), key=..., reverse=True)`. */
  function Ranked<K(==)>(es: seq<Entry<K>>, key: Group<K> -> int): seq<Group<K>> {
    SortDesc(Buckets(es), key)
  }

  lemma {:induction false} GroupsForSums<K>(ks: seq<K>, es: seq<Entry<K>>)
    ensures SumBy(GroupsFor(ks, es), CountOf) == OverKeys(ks, es, Count)
    ensures SumBy(GroupsFor(ks, es), SumOf) == OverKeys(ks, es, Sum)
  {
    if |ks| > 0 {
      GroupsForSums(ks[1..], es);
      var gs := GroupsFor(ks, es);
      assert gs[1..] == GroupsFor(ks[1..], es);
    }
  }

  lemma GroupsForKeys<K>(ks: seq<K>, es: seq<Entry<K>>)
    requires Distinct(ks)
    ensures Unique(GroupsFor(ks, es), KeyOf)
    ensures forall g | g in GroupsFor(ks, es) :: g.key in ks && g.count == For(es, g.key, Count) && g.sum == For(es, g.key, Sum)
    ensures forall k | k in ks :: exists g | g in GroupsFor(ks, es) :: g.key == k
  {
    var gs := GroupsFor(ks, es);
    forall k | k in ks ensures exists g | g in gs :: g.key == k {
      var i :| 0 <= i < |ks| && ks[i] == k;
      assert gs[i] in gs;
    }
  }

  /** The buckets hold, together, exactly what all the entries contributed:
      for both figures the grouping conserves the total, and every key met
      has exactly one bucket, which holds that key's figures. */
  lemma BucketsFacts<K>(es: seq<Entry<K>>)
    ensures SumBy(Buckets(es), CountOf) == Total(es, Count)
    ensures SumBy(Buckets(es), SumOf) == Total(es, Sum)
    ensures Unique(Buckets(es), KeyOf)
    ensures forall g | g in Buckets(es) :: BucketOf(g, es)
    ensures forall k | k in KeySet(es) :: exists g | g in Buckets(es) :: g.key == k
  {
    GroupsForSums(Keys(es), es);
    OverAllKeys(Keys(es), es, Count);
    OverAllKeys(Keys(es), es, Sum);
    GroupsForKeys(Keys(es), es);
  }

  /** Sorting the buckets keeps each of them and orders them by `key`,
      largest first. */
  lemma RankedMembers<K>(es: seq<Entry<K>>, key: Group<K> -> int)
    ensures Descending(Ranked(es, key), key)
    ensures forall g | g in Ranked(es, key) :: BucketOf(g, es)
    ensures forall k | k in KeySet(es) :: exists g | g in Ranked(es, key) :: g.key == k
  {
    var b, r := Buckets(es), Ranked(es, key);
    BucketsFacts(es);
    PermutationMembers(b, r);
    forall g | g in r ensures BucketOf(g, es) {
      assert g in multiset(r);
      assert g in multiset(b);
      assert g in b;
    }
    forall k | k in KeySet(es) ensures exists g | g in r :: g.key == k {
      var g :| g in b && g.key == k;
      assert g in r;
    }
  }

  /** The sorted buckets carry exactly the keys met. */
  lemma RankedKeySet<K>(es: seq<Entry<K>>, key: Group<K> -> int)
    ensures (set g | g in Ranked(es, key) :: g.key) == KeySet(es)
  {
    RankedMembers(es, key);
  }

  /** Sorting the buckets changes neither their sums nor the fact that each
      key has one of them. */
  lemma RankedFacts<K>(es: seq<Entry<K>>, key: Group<K> -> int)
    ensures Descending(Ranked(es, key), key)
    ensures SumBy(Ranked(es, key), CountOf) == Total(es, Count)
    ensures SumBy(Ranked(es, key), SumOf) == Total(es, Sum)
    ensures Unique(Ranked(es, key), KeyOf)
    ensures forall g | g in Ranked(es, key) :: BucketOf(g, es)
    ensures forall k | k in KeySet(es) :: exists g | g in Ranked(es, key) :: g.key == k
  {
    var b, r := Buckets(es), Ranked(es, key);
    BucketsFacts(es);
    SumByPermutation(b, r, CountOf);
    SumByPermutation(b, r, SumOf);
    UniquePermutation(b, r, KeyOf);
    RankedMembers(es, key);
  }

  // ---------------------------------------------------------------------------
  // Rows and their entries

  /** The entries the rows contribute, row by row: a row may contribute no
      entry (a skipped row), one, or several (one per line of an order). */
  function Contribute<R, K>(rows: seq<R>, f: R -> seq<Entry<K>>): seq<Entry<K>> {
    if |rows| == 0 then [] else Contribute(rows[..|rows| - 1], f) + f(rows[|rows| - 1])
  }

  lemma {:induction false} TotalConcat<K>(es: seq<Entry<K>>, fs: seq<Entry<K>>, m: Measure)
    ensures Total(es + fs, m) == Total(es, m) + Total(fs, m)
  {
    if |fs| > 0 {
      var n := |fs| - 1;
      TotalConcat(es, fs[..n], m);
      assert (es + fs)[..|es + fs| - 1] == es + fs[..n];
    } else {
      assert es + fs == es;
    }
  }

  /** All the rows together contribute to a figure the sum, over the rows, of
      what each one contributes (`g`). */
  lemma {:induction false} ContributeTotal<R, K>(rows: seq<R>, f: R -> seq<Entry<K>>, g: R -> int, m: Measure)
    requires forall r | r in rows :: g(r) == Total(f(r), m)
    ensures Total(Contribute(rows, f), m) == SumBy(rows, g)
  {
    if |rows| > 0 {
      var n := |rows| - 1;
      assert forall r | r in rows[..n] :: r in rows;
      ContributeTotal(rows[..n], f, g, m);
      TotalConcat(Contribute(rows[..n], f), f(rows[n]), m);
      assert rows == rows[..n] + [rows[n]];
      SumByAppend(rows[..n], [rows[n]], g);
    }
  }

  /** A key has a bucket exactly when some row contributes an entry for it. */
  lemma {:induction false} ContributeKeys<R, K>(rows: seq<R>, f: R -> seq<Entry<K>>)
    ensures forall k :: k in KeySet(Contribute(rows, f)) <==> exists r | r in rows :: k in KeySet(f(r))
  {
    if |rows| > 0 {
      var n := |rows| - 1;
      ContributeKeys(rows[..n], f);
      var a, b := Contribute(rows[..n], f), f(rows[n]);
      assert forall e :: e in a + b <==> e in a || e in b;
      assert KeySet(a + b) == KeySet(a) + KeySet(b);
      assert rows == rows[..n] + [rows[n]];
      assert forall r :: r in rows <==> r in rows[..n] || r == rows[n];
    }
  }

  /** Row `r` contributes at most one entry: under the key `key(r)`, adding
      `cnt(r)` to its counter and `fig(r)` to its total. A row that
      contributes nothing (a skipped row) has `cnt` and `fig` 0. */
  ghost predicate OneEntry<R, K>(f: R -> seq<Entry<K>>, key: R -> K, cnt: R -> int, fig: R -> int, r: R) {
    || f(r) == [Entry(key(r), cnt(r), fig(r))]
    || (f(r) == [] && cnt(r) == 0 && fig(r) == 0)
  }

  /** The rows that contribute an entry. */
  ghost predicate Counted<R, K>(f: R -> seq<Entry<K>>, r: R) {
    f(r) != []
  }

  /** The keys with a bucket are the keys of the rows that contribute. */
  lemma ContributeKeySet<R, K>(rows: seq<R>, f: R -> seq<Entry<K>>, key: R -> K, cnt: R -> int, fig: R -> int)
    requires forall r | r in rows :: OneEntry(f, key, cnt, fig, r)
    ensures KeySet(Contribute(rows, f)) == set r | r in rows && Counted(f, r) :: key(r)
  {
    ContributeKeys(rows, f);
    var keys := set r | r in rows && Counted(f, r) :: key(r);
    forall k | k in KeySet(Contribute(rows, f)) ensures k in keys {
      var r :| r in rows && k in KeySet(f(r));
      assert f(r) == [Entry(key(r), cnt(r), fig(r))];
      assert k == key(r);
    }
    forall k | k in keys ensures k in KeySet(Contribute(rows, f)) {
      var r :| r in rows && Counted(f, r) && key(r) == k;
      assert f(r)[0] in f(r);
      assert k in KeySet(f(r));
    }
    assert KeySet(Contribute(rows, f)) <= keys;
  }

  /** The contributing rows are those satisfying `p`: the keys met can be
      stated through `p`. */
  lemma CountedKeys<R, K, J>(rows: seq<R>, f: R -> seq<Entry<K>>, p: R -> bool, key: R -> J)
    requires forall r | r in rows :: Counted(f, r) <==> p(r)
    ensures (set r | r in rows && Counted(f, r) :: key(r)) == (set r | r in rows && p(r) :: key(r))
  {
    var a, b := set r | r in rows && Counted(f, r) :: key(r), set r | r in rows && p(r) :: key(r);
    forall j | j in a ensures j in b {
      var r :| r in rows && Counted(f, r) && key(r) == j;
    }
    forall j | j in b ensures j in a {
      var r :| r in rows && p(r) && key(r) == j;
    }
  }

  /** The sum of `g` over the rows whose key is `k`. */
  function SumWhere<R, K(==)>(rows: seq<R>, key: R -> K, k: K, g: R -> int): int {
    if |rows| == 0 then 0
    else
      var n := |rows| - 1;
      SumWhere(rows[..n], key, k, g) + (if key(rows[n]) == k then g(rows[n]) else 0)
  }

  /** One measure at a time: a bucket's figure is the sum of `g` over the
      rows with its key, when each row adds `g` under its key or nothing. */
  lemma {:induction false} ContributeRowsOf<R, K>(rows: seq<R>, f: R -> seq<Entry<K>>, key: R -> K, g: R -> int, m: Measure, k: K)
    requires forall r | r in rows ::
               || (f(r) == [] && g(r) == 0)
               || (|f(r)| == 1 && f(r)[0].key == key(r) && Of(f(r)[0], m) == g(r))
    ensures For(Contribute(rows, f), k, m) == SumWhere(rows, key, k, g)
  {
    if |rows| > 0 {
      var n := |rows| - 1;
      var front, last := rows[..n], rows[n];
      assert forall r | r in front :: r in rows;
      ContributeRowsOf(front, f, key, g, m, k);
      assert last in rows;
      assert Contribute(rows, f) == Contribute(front, f) + f(last);
      if f(last) == [] {
        assert Contribute(front, f) + f(last) == Contribute(front, f);
      } else {
        assert f(last) == [f(last)[0]];
        ForAppend(Contribute(front, f), f(last)[0], k, m);
      }
    }
  }

  /** A bucket's counter is the sum of `cnt` and its total the sum of `fig`
      over the rows with its key. */
  lemma ContributeRows<R, K>(rows: seq<R>, f: R -> seq<Entry<K>>, key: R -> K, cnt: R -> int, fig: R -> int, k: K)
    requires forall r | r in rows :: OneEntry(f, key, cnt, fig, r)
    ensures For(Contribute(rows, f), k, Count) == SumWhere(rows, key, k, cnt)
    ensures For(Contribute(rows, f), k, Sum) == SumWhere(rows, key, k, fig)
  {
    ContributeRowsOf(rows, f, key, cnt, Count, k);
    ContributeRowsOf(rows, f, key, fig, Sum, k);
  }

  lemma {:induction false} SumWhereNonNegative<R, K>(rows: seq<R>, key: R -> K, k: K, g: R -> int)
    requires forall r | r in rows :: g(r) >= 0
    ensures SumWhere(rows, key, k, g) >= 0
  {
    if |rows| > 0 {
      var n := |rows| - 1;
      assert forall r | r in rows[..n] :: r in rows;
      SumWhereNonNegative(rows[..n], key, k, g);
      assert rows[n] in rows;
    }
  }

  /** A sum of figures none of which is negative is positive once one of them
      is. */
  lemma {:induction false} SumWherePositive<R, K>(rows: seq<R>, key: R -> K, k: K, g: R -> int, r0: R)
    requires forall r | r in rows :: g(r) >= 0
    requires r0 in rows && key(r0) == k && g(r0) > 0
    ensures SumWhere(rows, key, k, g) > 0
  {
    var n := |rows| - 1;
    assert forall r | r in rows[..n] :: r in rows;
    assert rows[n] in rows;
    if rows[n] == r0 {
      SumWhereNonNegative(rows[..n], key, k, g);
    } else {
      assert rows == rows[..n] + [rows[n]];
      assert r0 in rows[..n];
      SumWherePositive(rows[..n], key, k, g, r0);
    }
  }

  /** All the buckets together hold the sums of `cnt` and `fig` over all rows. */
  lemma ContributeTotals<R, K>(rows: seq<R>, f: R -> seq<Entry<K>>, key: R -> K, cnt: R -> int, fig: R -> int)
    requires forall r | r in rows :: OneEntry(f, key, cnt, fig, r)
    ensures Total(Contribute(rows, f), Count) == SumBy(rows, cnt)
    ensures Total(Contribute(rows, f), Sum) == SumBy(rows, fig)
  {
    forall r | r in rows ensures cnt(r) == Total(f(r), Count) && fig(r) == Total(f(r), Sum) {
      if f(r) != [] {
        var e := Entry(key(r), cnt(r), fig(r));
        TotalAppend([], e, Count);
        TotalAppend([], e, Sum);
        assert [] + [e] == f(r);
      }
    }
    ContributeTotal(rows, f, cnt, Count);
    ContributeTotal(rows, f, fig, Sum);
  }

  /** `sorted(d.values(), ...)` of a dictionary whose rows each add to one
      bucket: one group per key met among the contributing rows and no other,
      each holding the sums over its rows, all together the sums over all the
      rows. */
  lemma RankedRows<R, K>(rows: seq<R>, f: R -> seq<Entry<K>>, key: R -> K, cnt: R -> int, fig: R -> int,
                         order: Group<K> -> int)
    requires forall r | r in rows :: OneEntry(f, key, cnt, fig, r)
    ensures Descending(Ranked(Contribute(rows, f), order), order)
    ensures Unique(Ranked(Contribute(rows, f), order), KeyOf)
    ensures (set g | g in Ranked(Contribute(rows, f), order) :: g.key) == set r | r in rows && Counted(f, r) :: key(r)
    ensures forall g | g in Ranked(Contribute(rows, f), order) ::
              g.count == SumWhere(rows, key, g.key, cnt) && g.sum == SumWhere(rows, key, g.key, fig)
    ensures SumBy(Ranked(Contribute(rows, f), order), CountOf) == SumBy(rows, cnt)
    ensures SumBy(Ranked(Contribute(rows, f), order), SumOf) == SumBy(rows, fig)
  {
    var es := Contribute(rows, f);
    RankedFacts(es, order);
    RankedKeySet(es, order);
    ContributeKeySet(rows, f, key, cnt, fig);
    ContributeTotals(rows, f, key, cnt, fig);
    forall g | g in Ranked(es, order)
      ensures g.count == SumWhere(rows, key, g.key, cnt) && g.sum == SumWhere(rows, key, g.key, fig)
    {
      ContributeRows(rows, f, key, cnt, fig, g.key);
    }
  }

  lemma {:induction false} OuterConcat<K1, K2>(a: seq<Entry<(K1, K2)>>, b: seq<Entry<(K1, K2)>>)
    ensures Outer(a + b) == Outer(a) + Outer(b)
  {
    if |b| > 0 {
      var n := |b| - 1;
      OuterConcat(a, b[..n]);
      assert (a + b)[..|a + b| - 1] == a + b[..n];
    } else {
      assert a + b == a;
    }
  }

  /** The outer dictionary of what the rows contribute is what they contribute
      when only the outer key is kept. */
  lemma {:induction false} OuterOfContribute<R, K1, K2>(rows: seq<R>, f: R -> seq<Entry<(K1, K2)>>, g: R -> seq<Entry<K1>>)
    requires forall r | r in rows :: g(r) == Outer(f(r))
    ensures Outer(Contribute(rows, f)) == Contribute(rows, g)
  {
    if |rows| > 0 {
      var n := |rows| - 1;
      assert forall r | r in rows[..n] :: r in rows;
      OuterOfContribute(rows[..n], f, g);
      OuterConcat(Contribute(rows[..n], f), f(rows[n]));
      assert rows[n] in rows;
    }
  }

  // ---------------------------------------------------------------------------
  // Dictionaries of dictionaries

  /** A bucket of an outer dictionary together with its inner dictionary
      (`parts`), as in `products[article]['by_warehouse'][wh]`. */
  datatype Nested<K1, K2> = Nested(key: K1, count: int, sum: int, parts: seq<Group<K2>>)

  function NestedKey<K1, K2>(n: Nested<K1, K2>): K1 { n.key }
  function NestedCount<K1, K2>(n: Nested<K1, K2>): int { n.count }
  function NestedSum<K1, K2>(n: Nested<K1, K2>): int { n.sum }

  /** The outer buckets of the keys `ks` with their inner dictionaries. */
  function NestFor<K1(==), K2(==)>(ks: seq<K1>, es: seq<Entry<(K1, K2)>>): (ns: seq<Nested<K1, K2>>)
    ensures |ns| == |ks|
    ensures forall i :: 0 <= i < |ks| ==>
              ns[i] == Nested(ks[i], For(Outer(es), ks[i], Count), For(Outer(es), ks[i], Sum), Buckets(Inner(es, ks[i])))
  {
    if |ks| == 0 then []
    else [Nested(ks[0], For(Outer(es), ks[0], Count), For(Outer(es), ks[0], Sum), Buckets(Inner(es, ks[0])))]
         + NestFor(ks[1..], es)
  }

  /** The dictionary of dictionaries the walk over `es` leaves: outer keys in
      the order first met, each with its inner dictionary. */
  function Nest<K1(==), K2(==)>(es: seq<Entry<(K1, K2)>>): seq<Nested<K1, K2>> {
    NestFor(Keys(Outer(es)), es)
  }

  /** The inner dictionary of `n` adds up to the figures of its outer bucket. */
  ghost predicate AddsUp<K1, K2>(n: Nested<K1, K2>) {
    SumBy(n.parts, CountOf) == n.count && SumBy(n.parts, SumOf) == n.sum
  }

  /** `n` is the outer bucket of its key, and its parts are exactly the inner
      buckets of that key, each holding its own figures. */
  ghost predicate NestedOf<K1, K2>(n: Nested<K1, K2>, es: seq<Entry<(K1, K2)>>) {
    && BucketOf(Group(n.key, n.count, n.sum), Outer(es))
    && Unique(n.parts, KeyOf)
    && (forall g | g in n.parts :: BucketOf(g, Inner(es, n.key)))
    && (forall k2 | k2 in KeySet(Inner(es, n.key)) :: exists g | g in n.parts :: g.key == k2)
  }

  /** Every inner dictionary adds up to its outer bucket; every outer key has
      one bucket. */
  lemma NestFacts<K1, K2>(es: seq<Entry<(K1, K2)>>)
    ensures Unique(Nest(es), NestedKey)
    ensures forall n | n in Nest(es) :: NestedOf(n, es) && AddsUp(n)
    ensures forall k | k in KeySet(Outer(es)) :: exists n | n in Nest(es) :: n.key == k
    ensures SumBy(Nest(es), NestedCount) == Total(es, Count)
    ensures SumBy(Nest(es), NestedSum) == Total(es, Sum)
  {
    NestUnique(es);
    forall n | n in Nest(es) ensures NestedOf(n, es) && AddsUp(n) {
      NestMember(es, n);
    }
    NestCovers(es);
    NestTotals(es);
  }

  /** Outer keys are met once each. */
  lemma NestUnique<K1, K2>(es: seq<Entry<(K1, K2)>>)
    ensures Unique(Nest(es), NestedKey)
  {
    var ks, ns := Keys(Outer(es)), Nest(es);
    forall i, j | 0 <= i < j < |ns| ensures NestedKey(ns[i]) != NestedKey(ns[j]) {
      assert NestedKey(ns[i]) == ks[i] && NestedKey(ns[j]) == ks[j];
    }
  }

  /** One outer bucket with its inner dictionary. */
  lemma NestMember<K1, K2>(es: seq<Entry<(K1, K2)>>, n: Nested<K1, K2>)
    requires n in Nest(es)
    ensures NestedOf(n, es) && AddsUp(n)
  {
    var ks, ns := Keys(Outer(es)), Nest(es);
    var i :| 0 <= i < |ns| && ns[i] == n;
    BucketsFacts(Inner(es, n.key));
    InnerTotal(es, n.key, Count);
    InnerTotal(es, n.key, Sum);
  }

  /** Every outer key has a bucket. */
  lemma NestCovers<K1, K2>(es: seq<Entry<(K1, K2)>>)
    ensures forall k | k in KeySet(Outer(es)) :: exists n | n in Nest(es) :: n.key == k
  {
    var ks, ns := Keys(Outer(es)), Nest(es);
    forall k | k in KeySet(Outer(es)) ensures exists n | n in ns :: n.key == k {
      var i :| 0 <= i < |ks| && ks[i] == k;
      assert ns[i] in ns;
    }
  }

  /** The outer buckets add up to all entries. */
  lemma NestTotals<K1, K2>(es: seq<Entry<(K1, K2)>>)
    ensures SumBy(Nest(es), NestedCount) == Total(es, Count)
    ensures SumBy(Nest(es), NestedSum) == Total(es, Sum)
  {
    var ks := Keys(Outer(es));
    NestSums(ks, es);
    OverAllKeys(ks, Outer(es), Count);
    OverAllKeys(ks, Outer(es), Sum);
    OuterTotal(es, Count);
    OuterTotal(es, Sum);
  }

  lemma {:induction false} NestSums<K1, K2>(ks: seq<K1>, es: seq<Entry<(K1, K2)>>)
    ensures SumBy(NestFor(ks, es), NestedCount) == OverKeys(ks, Outer(es), Count)
    ensures SumBy(NestFor(ks, es), NestedSum) == OverKeys(ks, Outer(es), Sum)
  {
    if |ks| > 0 {
      NestSums(ks[1..], es);
      assert NestFor(ks, es)[1..] == NestFor(ks[1..], es);
    }
  }

  /** Re-keying by the outer key loses nothing. */
  lemma {:induction false} OuterTotal<K1, K2>(es: seq<Entry<(K1, K2)>>, m: Measure)
    ensures Total(Outer(es), m) == Total(es, m)
  {
    if |es| > 0 {
      var n := |es| - 1;
      OuterTotal(es[..n], m);
      var e := es[n];
      TotalAppend(Outer(es[..n]), Entry(e.key.0, e.count, e.sum), m);
    }
  }

  /** Each inner dictionary sorted by `key`, largest first, as
      `p['by_warehouse'] = sorted(p['by_warehouse'].values(), ...)` does. */
  function RankParts<K1, K2(==)>(ns: seq<Nested<K1, K2>>, key: Group<K2> -> int): (r: seq<Nested<K1, K2>>)
    ensures |r| == |ns|
    ensures forall i :: 0 <= i < |ns| ==> r[i] == ns[i].(parts := SortDesc(ns[i].parts, key))
  {
    if |ns| == 0 then [] else [ns[0].(parts := SortDesc(ns[0].parts, key))] + RankParts(ns[1..], key)
  }

  /** Sorting the inner dictionaries keeps every fact about them, and orders
      each of them by `key`. */
  /** One outer bucket with its parts sorted by `key`. */
  function RankOne<K1, K2(==)>(key: Group<K2> -> int): Nested<K1, K2> -> Nested<K1, K2> {
    (n: Nested<K1, K2>) => n.(parts := SortDesc(n.parts, key))
  }

  lemma RankPartsMapped<K1, K2>(ns: seq<Nested<K1, K2>>, key: Group<K2> -> int)
    ensures RankParts(ns, key) == Mapped(ns, RankOne(key))
    ensures forall n: Nested<K1, K2> :: NestedSum(RankOne(key)(n)) == NestedSum(n)
  {
  }

  /** Sorting each bucket's parts leaves its total alone, so it commutes with
      sorting the outer list by total. */
  lemma RankPartsSort<K1, K2>(ns: seq<Nested<K1, K2>>, key: Group<K2> -> int)
    ensures RankParts(SortDesc(ns, NestedSum), key) == SortDesc(RankParts(ns, key), NestedSum)
  {
    RankPartsMapped(ns, key);
    RankPartsMapped(SortDesc(ns, NestedSum), key);
    MappedSort(ns, RankOne(key), NestedSum);
  }

  /** Each outer bucket has one part per inner key. */
  lemma NestPartsCount<K1, K2>(es: seq<Entry<(K1, K2)>>)
    ensures forall n | n in Nest(es) :: |n.parts| == |KeySet(Inner(es, n.key))|
  {
    forall n | n in Nest(es) ensures |n.parts| == |KeySet(Inner(es, n.key))| {
      var ks := Keys(Outer(es));
      var i :| 0 <= i < |Nest(es)| && Nest(es)[i] == n;
      var inner := Inner(es, ks[i]);
      assert n.parts == GroupsFor(Keys(inner), inner);
      DistinctCard(Keys(inner));
      assert (set x | x in Keys(inner)) == KeySet(inner);
    }
  }

  /** Sorting the parts one outer bucket at a time. */
  lemma RankPartsAppend<K1, K2>(ns: seq<Nested<K1, K2>>, n: Nested<K1, K2>, key: Group<K2> -> int)
    ensures RankParts(ns + [n], key) == RankParts(ns, key) + [Nested(n.key, n.count, n.sum, SortDesc(n.parts, key))]
  {
    var a, b := RankParts(ns + [n], key), RankParts(ns, key) + [Nested(n.key, n.count, n.sum, SortDesc(n.parts, key))];
    assert |a| == |b|;
    forall i | 0 <= i < |a| ensures a[i] == b[i] {
      if i < |ns| {
        assert (ns + [n])[i] == ns[i];
      }
    }
  }

  lemma RankPartsStep<K1, K2>(ns: seq<Nested<K1, K2>>, i: nat, key: Group<K2> -> int)
    requires i < |ns|
    ensures RankParts(ns[..i + 1], key) == RankParts(ns[..i], key) + [Nested(ns[i].key, ns[i].count, ns[i].sum, SortDesc(ns[i].parts, key))]
  {
    assert ns[..i + 1] == ns[..i] + [ns[i]];
    RankPartsAppend(ns[..i], ns[i], key);
  }

  lemma RankPartsFacts<K1, K2>(ns: seq<Nested<K1, K2>>, es: seq<Entry<(K1, K2)>>, key: Group<K2> -> int)
    requires forall n | n in ns :: NestedOf(n, es) && AddsUp(n)
    ensures forall n | n in RankParts(ns, key) :: NestedOf(n, es) && AddsUp(n) && Descending(n.parts, key)
  {
    var r := RankParts(ns, key);
    forall n | n in r ensures NestedOf(n, es) && AddsUp(n) && Descending(n.parts, key) {
      var i :| 0 <= i < |r| && r[i] == n;
      var p := ns[i].parts;
      assert ns[i] in ns;
      SumByPermutation(p, n.parts, CountOf);
      SumByPermutation(p, n.parts, SumOf);
      UniquePermutation(p, n.parts, KeyOf);
      forall g | g in n.parts ensures g in p {
        assert g in multiset(n.parts);
      }
      forall k2 | k2 in KeySet(Inner(es, n.key)) ensures exists g | g in n.parts :: g.key == k2 {
        var g :| g in p && g.key == k2;
        assert g in multiset(p);
      }
    }
  }

  /** Sorting the inner dictionaries leaves the outer figures as they were. */
  lemma {:induction false} RankPartsSums<K1, K2>(ns: seq<Nested<K1, K2>>, key: Group<K2> -> int)
    ensures SumBy(RankParts(ns, key), NestedCount) == SumBy(ns, NestedCount)
    ensures SumBy(RankParts(ns, key), NestedSum) == SumBy(ns, NestedSum)
  {
    if |ns| > 0 {
      RankPartsSums(ns[1..], key);
      assert RankParts(ns, key)[1..] == RankParts(ns[1..], key);
    }
  }

  /** Sorting the inner dictionaries leaves the outer order and keys as they
      were. */
  lemma RankPartsOrder<K1, K2>(ns: seq<Nested<K1, K2>>, key: Group<K2> -> int)
    requires Descending(ns, NestedSum) && Unique(ns, NestedKey)
    ensures Descending(RankParts(ns, key), NestedSum) && Unique(RankParts(ns, key), NestedKey)
  {
    var r := RankParts(ns, key);
    assert forall i | 0 <= i < |r| :: r[i].key == ns[i].key && r[i].sum == ns[i].sum;
  }

  lemma RankPartsKeys<K1, K2>(ns: seq<Nested<K1, K2>>, key: Group<K2> -> int)
    ensures forall n | n in ns :: exists m | m in RankParts(ns, key) :: m.key == n.key
  {
    var r := RankParts(ns, key);
    forall n | n in ns ensures exists m | m in r :: m.key == n.key {
      var i :| 0 <= i < |ns| && ns[i] == n;
      assert r[i] in r;
    }
  }

  /** The outer keys of a list of nested buckets. */
  function OuterKeys<K1(==), K2(==)>(ns: seq<Nested<K1, K2>>): set<K1> {
    set n | n in ns :: n.key
  }

  /** Cutting a list sorted by outer total to its first `n` and then sorting
      each kept bucket's parts keeps the top `n`: a bucket whose key was cut
      holds no more than any bucket kept. */
  lemma RankPartsTop<K1, K2>(all: seq<Nested<K1, K2>>, n: nat, key: Group<K2> -> int)
    requires Descending(all, NestedSum)
    ensures forall v, w | v in all && w in RankParts(Take(all, n), key) ::
              v.key in OuterKeys(RankParts(Take(all, n), key)) || v.sum <= w.sum
  {
    var top := Take(all, n);
    var r := RankParts(top, key);
    TakeTop(all, n, NestedSum);
    forall v, w | v in all && w in r ensures v.key in OuterKeys(r) || v.sum <= w.sum {
      var i :| 0 <= i < |r| && r[i] == w;
      assert top[i] in top && top[i].sum == w.sum;
      if v in top {
        var j :| 0 <= j < |top| && top[j] == v;
        assert r[j] in r && r[j].key == v.key;
      }
    }
  }

  /** The dictionary of dictionaries sorted by its outer totals, largest first. */
  function SortedNest<K1(==), K2(==)>(es: seq<Entry<(K1, K2)>>): seq<Nested<K1, K2>> {
    SortDesc(Nest(es), NestedSum)
  }

  lemma SortedNestFacts<K1, K2>(es: seq<Entry<(K1, K2)>>)
    ensures Descending(SortedNest(es), NestedSum)
    ensures Unique(SortedNest(es), NestedKey)
    ensures forall n | n in SortedNest(es) :: NestedOf(n, es) && AddsUp(n)
    ensures forall k | k in KeySet(Outer(es)) :: exists n | n in SortedNest(es) :: n.key == k
    ensures SumBy(SortedNest(es), NestedCount) == Total(es, Count)
    ensures SumBy(SortedNest(es), NestedSum) == Total(es, Sum)
  {
    var b, r := Nest(es), SortedNest(es);
    NestFacts(es);
    SumByPermutation(b, r, NestedCount);
    SumByPermutation(b, r, NestedSum);
    UniquePermutation(b, r, NestedKey);
    forall n | n in r ensures NestedOf(n, es) && AddsUp(n) {
      assert n in multiset(r);
    }
    forall k | k in KeySet(Outer(es)) ensures exists n | n in r :: n.key == k {
      var n :| n in b && n.key == k;
      assert n in multiset(b);
    }
  }

  /** Both levels sorted: the outer list by total, each inner one by `key`. */
  function RankedNest<K1(==), K2(==)>(es: seq<Entry<(K1, K2)>>, key: Group<K2> -> int): seq<Nested<K1, K2>> {
    RankParts(SortedNest(es), key)
  }

  lemma RankedNestFacts<K1, K2>(es: seq<Entry<(K1, K2)>>, key: Group<K2> -> int)
    ensures Descending(RankedNest(es, key), NestedSum)
    ensures Unique(RankedNest(es, key), NestedKey)
    ensures forall n | n in RankedNest(es, key) :: NestedOf(n, es) && AddsUp(n) && Descending(n.parts, key)
    ensures forall k | k in KeySet(Outer(es)) :: exists n | n in RankedNest(es, key) :: n.key == k
    ensures SumBy(RankedNest(es, key), NestedCount) == Total(es, Count)
    ensures SumBy(RankedNest(es, key), NestedSum) == Total(es, Sum)
  {
    var ns, r := SortedNest(es), RankedNest(es, key);
    SortedNestFacts(es);
    RankPartsFacts(ns, es, key);
    RankPartsSums(ns, key);
    RankPartsOrder(ns, key);
    RankPartsKeys(ns, key);
  }

  /** An inner bucket holds what the entries of both keys hold. */
  lemma {:induction false} InnerFor<K1, K2>(es: seq<Entry<(K1, K2)>>, k1: K1, k2: K2, m: Measure)
    ensures For(Inner(es, k1), k2, m) == For(es, (k1, k2), m)
  {
    if |es| > 0 {
      var n := |es| - 1;
      var e := es[n];
      InnerFor(es[..n], k1, k2, m);
      if e.key.0 == k1 {
        ForAppend(Inner(es[..n], k1), Entry(e.key.1, e.count, e.sum), k2, m);
      } else {
        assert e.key != (k1, k2);
        assert Inner(es, k1) == Inner(es[..n], k1) + [];
        assert Inner(es[..n], k1) + [] == Inner(es[..n], k1);
      }
    }
  }

  /** The outer dictionary of one row's entry. */
  function OuterOf<R, K1(==), K2(==)>(f: R -> seq<Entry<(K1, K2)>>): R -> seq<Entry<K1>> {
    r => Outer(f(r))
  }

  /** Rows of a dictionary of dictionaries, each adding to at most one inner
      bucket: an outer bucket holds the sums over the rows of its outer key,
      an inner bucket the sums over the rows of both its keys. */
  lemma NestedRows<R, K1, K2>(rows: seq<R>, f: R -> seq<Entry<(K1, K2)>>, key: R -> (K1, K2), outer: R -> K1,
                              cnt: R -> int, fig: R -> int, n: Nested<K1, K2>)
    requires forall r | r in rows :: OneEntry(f, key, cnt, fig, r) && outer(r) == key(r).0
    requires NestedOf(n, Contribute(rows, f))
    ensures n.count == SumWhere(rows, outer, n.key, cnt) && n.sum == SumWhere(rows, outer, n.key, fig)
    ensures forall g | g in n.parts ::
              g.count == SumWhere(rows, key, (n.key, g.key), cnt) && g.sum == SumWhere(rows, key, (n.key, g.key), fig)
  {
    var es, h := Contribute(rows, f), OuterOf(f);
    forall r | r in rows ensures h(r) == Outer(f(r)) && OneEntry(h, outer, cnt, fig, r) {
      if f(r) != [] {
        assert f(r)[..0] == [];
      }
    }
    OuterOfContribute(rows, f, h);
    ContributeRows(rows, h, outer, cnt, fig, n.key);
    forall g | g in n.parts
      ensures g.count == SumWhere(rows, key, (n.key, g.key), cnt) && g.sum == SumWhere(rows, key, (n.key, g.key), fig)
    {
      InnerFor(es, n.key, g.key, Count);
      InnerFor(es, n.key, g.key, Sum);
      ContributeRows(rows, f, key, cnt, fig, (n.key, g.key));
    }
  }

  /** The inner keys of a dictionary of dictionaries are those of the rows
      that contribute under its outer key. */
  lemma NestedRowKeys<R, K1, K2>(rows: seq<R>, f: R -> seq<Entry<(K1, K2)>>, key: R -> (K1, K2),
                                 cnt: R -> int, fig: R -> int, n: Nested<K1, K2>)
    requires forall r | r in rows :: OneEntry(f, key, cnt, fig, r)
    requires NestedOf(n, Contribute(rows, f))
    ensures forall g | g in n.parts :: exists r | r in rows && Counted(f, r) :: key(r) == (n.key, g.key)
  {
    var es := Contribute(rows, f);
    ContributeKeySet(rows, f, key, cnt, fig);
    forall g | g in n.parts ensures exists r | r in rows && Counted(f, r) :: key(r) == (n.key, g.key) {
      InnerKeySet(es, n.key);
      assert (n.key, g.key) in KeySet(es);
    }
  }

  /** A list holding the outer bucket of every outer key, and nothing else,
      has exactly the outer keys of the rows that contribute. */
  lemma NestedKeys<R, K1, K2>(rows: seq<R>, f: R -> seq<Entry<(K1, K2)>>, key: R -> (K1, K2), outer: R -> K1,
                              cnt: R -> int, fig: R -> int, ns: seq<Nested<K1, K2>>)
    requires forall r | r in rows :: OneEntry(f, key, cnt, fig, r) && outer(r) == key(r).0
    requires forall n | n in ns :: NestedOf(n, Contribute(rows, f))
    requires forall k | k in KeySet(Outer(Contribute(rows, f))) :: exists n | n in ns :: n.key == k
    ensures (set n | n in ns :: n.key) == set r | r in rows && Counted(f, r) :: outer(r)
  {
    var h := OuterOf(f);
    forall r | r in rows ensures h(r) == Outer(f(r)) && OneEntry(h, outer, cnt, fig, r) && (Counted(h, r) <==> Counted(f, r)) {
      if f(r) != [] {
        assert f(r)[..0] == [];
      }
    }
    OuterOfContribute(rows, f, h);
    ContributeKeySet(rows, h, outer, cnt, fig);
    var a, b := set n | n in ns :: n.key, set r | r in rows && Counted(f, r) :: outer(r);
    assert b == set r | r in rows && Counted(h, r) :: outer(r);
    forall k | k in a ensures k in b {
      var n :| n in ns && n.key == k;
      assert BucketOf(Group(n.key, n.count, n.sum), Outer(Contribute(rows, f)));
    }
    assert a <= b;
  }

  // ---------------------------------------------------------------------------
  // The walk

  /** The walk so far: `order` lists the keys met in `prefix` in the order first
      met, and `acc` maps each of them to its counter and its total. */
  ghost predicate Walked<K>(acc: map<K, (int, int)>, order: seq<K>, prefix: seq<Entry<K>>) {
    && order == Keys(prefix)
    && acc.Keys == set k | k in order
    && forall k :: k in acc ==> acc[k] == (For(prefix, k, Count), For(prefix, k, Sum))
  }

  /** One step of the walk: create the bucket of `e.key` if it is new, then add
      `e` to it. */
  lemma {:induction false} WalkStep<K>(acc: map<K, (int, int)>, order: seq<K>, prefix: seq<Entry<K>>, e: Entry<K>,
                                       acc1: map<K, (int, int)>, order1: seq<K>)
    requires Walked(acc, order, prefix)
    requires order1 == if e.key in acc then order else order + [e.key]
    requires acc1 == (if e.key in acc then acc else acc[e.key := (0, 0)])
                       [e.key := ((if e.key in acc then acc[e.key].0 else 0) + e.count,
                                  (if e.key in acc then acc[e.key].1 else 0) + e.sum)]
    ensures Walked(acc1, order1, prefix + [e])
  {
    var next := prefix + [e];
    assert next[..|prefix|] == prefix;
    forall k | k in acc1
      ensures acc1[k] == (For(next, k, Count), For(next, k, Sum))
    {
      WalkFigure(acc, order, prefix, e, acc1, k);
    }
  }

  /** After the step, the counter and total of `k` are those of `prefix + [e]`. */
  lemma WalkFigure<K>(acc: map<K, (int, int)>, order: seq<K>, prefix: seq<Entry<K>>, e: Entry<K>,
                      acc1: map<K, (int, int)>, k: K)
    requires Walked(acc, order, prefix)
    requires acc1 == (if e.key in acc then acc else acc[e.key := (0, 0)])
                       [e.key := ((if e.key in acc then acc[e.key].0 else 0) + e.count,
                                  (if e.key in acc then acc[e.key].1 else 0) + e.sum)]
    requires k in acc1
    ensures acc1[k] == (For(prefix + [e], k, Count), For(prefix + [e], k, Sum))
  {
    ForAppend(prefix, e, k, Count);
    ForAppend(prefix, e, k, Sum);
    if k !in KeySet(prefix) {
      ForAbsent(prefix, k, Count);
      ForAbsent(prefix, k, Sum);
    }
  }

  /** Walks the entries once, keeping the dictionary as a map plus the list of
      its keys in insertion order, and hands back its values in that order. */
  method Accumulate<K(==)>(es: seq<Entry<K>>) returns (gs: seq<Group<K>>)
    ensures gs == Buckets(es)
  {
    var order: seq<K> := [];
    var acc: map<K, (int, int)> := map[];
    var i := 0;
    while i < |es|
      invariant 0 <= i <= |es|
      invariant Walked(acc, order, es[..i])
    {
      var e := es[i];
      ghost var acc0, order0 := acc, order;
      if e.key !in acc {
        acc := acc[e.key := (0, 0)];
        order := order + [e.key];
      }
      acc := acc[e.key := (acc[e.key].0 + e.count, acc[e.key].1 + e.sum)];
      WalkStep(acc0, order0, es[..i], e, acc, order);
      assert es[..i + 1] == es[..i] + [e];
      i := i + 1;
    }
    assert es[..i] == es;
    gs := Values(acc, order, es);
  }

  /** `d.values()`: the buckets in the order of `order`. */
  method Values<K(==)>(acc: map<K, (int, int)>, order: seq<K>, es: seq<Entry<K>>) returns (gs: seq<Group<K>>)
    requires Walked(acc, order, es)
    ensures gs == Buckets(es)
  {
    gs := [];
    var j := 0;
    while j < |order|
      invariant 0 <= j <= |order|
      invariant |gs| == j
      invariant forall l :: 0 <= l < j ==> gs[l] == Group(order[l], acc[order[l]].0, acc[order[l]].1)
    {
      assert order[j] in acc;
      gs := gs + [Group(order[j], acc[order[j]].0, acc[order[j]].1)];
      j := j + 1;
    }
  }

  /** Walks the entries for the outer dictionary, then once per outer key for
      its inner dictionary. */
  method AccumulateNested<K1(==), K2(==)>(es: seq<Entry<(K1, K2)>>) returns (ns: seq<Nested<K1, K2>>)
    ensures ns == Nest(es)
  {
    var outer := Accumulate(Outer(es));
    ns := [];
    var i := 0;
    while i < |outer|
      invariant 0 <= i <= |outer|
      invariant |ns| == i
      invariant forall j :: 0 <= j < i ==> ns[j] == Nest(es)[j]
    {
      var parts := Accumulate(Inner(es, outer[i].key));
      ns := ns + [Nested(outer[i].key, outer[i].count, outer[i].sum, parts)];
      i := i + 1;
    }
  }

  /** Replaces each outer bucket's inner dictionary by its values sorted by
      `key`, largest first, one outer bucket at a time. */
  method SortEachParts<K1(==), K2(==)>(ns: seq<Nested<K1, K2>>, key: Group<K2> -> int) returns (r: seq<Nested<K1, K2>>)
    ensures r == RankParts(ns, key)
  {
    r := [];
    var i := 0;
    while i < |ns|
      invariant 0 <= i <= |ns|
      invariant r == RankParts(ns[..i], key)
    {
      var n := ns[i];
      var sortedParts := SortDesc(n.parts, key);
      RankPartsStep(ns, i, key);
      r := r + [Nested(n.key, n.count, n.sum, sortedParts)];
      i := i + 1;
    }
    assert ns[..i] == ns;
  }
}
