/** The stock chart that `prepare` in Scripts/prepare_dashboard_data.py builds
    for each marketplace: warehouses grouped by cluster, priority clusters
    first, then the others in alphabetical order; one bar series per article
    that has stock somewhere. The Wildberries and Ozon blocks differ only in
    the marketplace name passed to `get_warehouse_cluster` and in the priority
    list, so one definition serves both. */
module ClusterChart {
  import opened Options
  import opened Text
  import opened Ranking
  import opened Tally
  import opened Clusters
  import opened Colors

  /** An entry of `stocks_warehouse_products`: `key` is the warehouse name and
      each group of `parts` one of its `products`, the quantity in `sum`. */
  type Warehouse = Nested<string, string>

  /** An entry of `clusters`: the cluster's warehouses occupy the labels from
      `startIndex` to `endIndex`, both included. */
  datatype ClusterInfo = ClusterInfo(name: string, startIndex: int, warehouseCount: int, totalStock: int, endIndex: int)

  /** A bar series; `caption` is the field `label`. */
  datatype Dataset = Dataset(caption: string, data: seq<int>, backgroundColor: string, borderColor: string, borderWidth: int)

  datatype Chart = Chart(labels: seq<string>, datasets: seq<Dataset>, clusters: seq<ClusterInfo>)

  const Border: string := "#1a1a1a"

  const WbPriority: seq<string> := ["Центральный", "Северо-Западный", "Приволжский", "Уральский"]
  const OzonPriority: seq<string> := ["Москва, МО и Дальние регионы", "Санкт-Петербург и СЗО", "Казань", "Краснодар"]

  /** The priority list of the block for `mpType`. */
  function PriorityFor(mpType: string): seq<string> {
    if mpType == "wb" then WbPriority else OzonPriority
  }

  /** `get_warehouse_cluster(wh['name'], mp_type)`, as a function of the
      warehouse; the layout below is stated for any such function. */
  function ClusterFor(mpType: string): Warehouse -> string {
    (w: Warehouse) => WarehouseCluster(w.key, mpType)
  }

  function InfoName(i: ClusterInfo): string { i.name }
  function InfoStock(i: ClusterInfo): int { i.totalStock }

  /** `sum(wh['products'].values())`. */
  function StockOf(w: Warehouse): int { SumBy(w.parts, SumOf) }

  /** `clustered_warehouses[c]`: the warehouses of cluster `c`, in input order. */
  function Members(whs: seq<Warehouse>, cluster: Warehouse -> string, c: string): seq<Warehouse> {
    if |whs| == 0 then []
    else
      var n := |whs| - 1;
      Members(whs[..n], cluster, c) + (if cluster(whs[n]) == c then [whs[n]] else [])
  }

  /** The keys of `clustered_warehouses`. */
  function Present(whs: seq<Warehouse>, cluster: Warehouse -> string): set<string> {
    if |whs| == 0 then {}
    else
      var n := |whs| - 1;
      Present(whs[..n], cluster) + {cluster(whs[n])}
  }

  /** The first loop of the ordering: the priority clusters that are present,
      in priority order. */
  function PriorityPresent(priority: seq<string>, present: set<string>): seq<string> {
    if |priority| == 0 then []
    else
      var n := |priority| - 1;
      PriorityPresent(priority[..n], present) + (if priority[n] in present then [priority[n]] else [])
  }

  /** The second loop: the names not in the priority list, in their order. */
  function Unlisted(names: seq<string>, priority: seq<string>): seq<string> {
    if |names| == 0 then []
    else
      var n := |names| - 1;
      Unlisted(names[..n], priority) + (if names[n] !in priority then [names[n]] else [])
  }

  /** `sorted_clusters`: the present priority clusters in priority order, then
      every other present cluster in ascending order. */
  ghost predicate ClusterOrder(order: seq<string>, priority: seq<string>, present: set<string>) {
    var head := PriorityPresent(priority, present);
    && |head| <= |order|
    && order[..|head|] == head
    && Ascending(order[|head|..])
    && forall x :: x in order[|head|..] <==> x in present && x !in priority
  }

  /** The warehouses in chart order: cluster by cluster, each cluster's in
      input order. */
  function Placed(whs: seq<Warehouse>, cluster: Warehouse -> string, order: seq<string>): seq<Warehouse> {
    if |order| == 0 then []
    else
      var n := |order| - 1;
      Placed(whs, cluster, order[..n]) + Members(whs, cluster, order[n])
  }

  function Labels(whs: seq<Warehouse>, cluster: Warehouse -> string, order: seq<string>): seq<string> {
    Mapped(Placed(whs, cluster, order), NestedKey)
  }

  /** `clusters`: for each cluster, where its labels start and end, how many
      warehouses it has and their total stock. */
  function Infos(whs: seq<Warehouse>, cluster: Warehouse -> string, order: seq<string>): (r: seq<ClusterInfo>)
    ensures |r| == |order|
  {
    if |order| == 0 then []
    else
      var n := |order| - 1;
      Infos(whs, cluster, order[..n]) + [InfoFor(whs, cluster, order, n)]
  }

  /** The entry of `clusters` for the `k`-th cluster of `order`: it starts
      where the labels of the clusters before it end. */
  function InfoFor(whs: seq<Warehouse>, cluster: Warehouse -> string, order: seq<string>, k: nat): ClusterInfo
    requires k < |order|
  {
    var start := |Placed(whs, cluster, order[..k])|;
    var ms := Members(whs, cluster, order[k]);
    ClusterInfo(order[k], start, |ms|, SumBy(ms, StockOf), start + |ms| - 1)
  }

  /** `wh['products'].get(article, 0)`. */
  function QtyOf(parts: seq<Group<string>>, article: string): int {
    if |parts| == 0 then 0
    else if parts[0].key == article then parts[0].sum
    else QtyOf(parts[1..], article)
  }

  function QtyIn(article: string): Warehouse -> int {
    (w: Warehouse) => QtyOf(w.parts, article)
  }

  /** A series' `data`: the article's quantity in each warehouse, in chart order. */
  function DataFor(placed: seq<Warehouse>, article: string): seq<int> {
    Mapped(placed, QtyIn(article))
  }

  /** `any(d > 0 for d in data)`. */
  predicate AnyPositive(data: seq<int>) {
    exists d | d in data :: d > 0
  }

  function DatasetFor(placed: seq<Warehouse>, article: string, hash: string -> int): Dataset {
    Dataset(article, DataFor(placed, article), ArticleColor(article, hash(article)), Border, 1)
  }

  /** `datasets`: the series of the articles, in their order, that have a
      positive quantity somewhere. */
  function Datasets(placed: seq<Warehouse>, articles: seq<string>, hash: string -> int): seq<Dataset> {
    if |articles| == 0 then []
    else
      var n := |articles| - 1;
      var ds := DatasetFor(placed, articles[n], hash);
      Datasets(placed, articles[..n], hash) + (if AnyPositive(ds.data) then [ds] else [])
  }

  /** The chart for a given cluster order. */
  function ChartOf(whs: seq<Warehouse>, cluster: Warehouse -> string, order: seq<string>, articles: seq<string>,
                   hash: string -> int): Chart {
    Chart(Labels(whs, cluster, order), Datasets(Placed(whs, cluster, order), articles, hash), Infos(whs, cluster, order))
  }

  // ---------------------------------------------------------------------------
  // The construction

  /** The chart block of `prepare` for marketplace `mpType`, `hash` standing
      for Python's `hash`: no chart when either input is empty; otherwise the
      chart laid out in the cluster order described by `ClusterOrder`. */
  method BuildChart(mpType: string, stocksWp: seq<Warehouse>, allArticles: seq<string>, hash: string -> int)
    returns (chart: Option<Chart>)
    ensures chart.None? <==> |stocksWp| == 0 || |allArticles| == 0
    ensures chart.Some? ==>
              && ClusterOrder(Mapped(chart.value.clusters, InfoName), PriorityFor(mpType),
                              Present(stocksWp, ClusterFor(mpType)))
              && chart.value == ChartOf(stocksWp, ClusterFor(mpType), Mapped(chart.value.clusters, InfoName),
                                        allArticles, hash)
  {
    if |stocksWp| == 0 || |allArticles| == 0 {
      return None;
    }
    var cluster := ClusterFor(mpType);
    var clustered := GroupByCluster(stocksWp, cluster);
    var order := OrderClusters(clustered.Keys, PriorityFor(mpType));
    OrderMembers(order, PriorityFor(mpType), clustered.Keys);
    var labels, infos := LayOut(clustered, stocksWp, cluster, order);
    var datasets := BuildDatasets(clustered, stocksWp, cluster, order, allArticles, hash);
    InfoNames(stocksWp, cluster, order);
    chart := Some(Chart(labels, datasets, infos));
  }

  /** `clustered_warehouses`, built in one walk. */
  method GroupByCluster(whs: seq<Warehouse>, cluster: Warehouse -> string) returns (m: map<string, seq<Warehouse>>)
    ensures m.Keys == Present(whs, cluster)
    ensures forall c | c in m :: m[c] == Members(whs, cluster, c)
  {
    m := map[];
    for i := 0 to |whs|
      invariant m.Keys == Present(whs[..i], cluster)
      invariant forall c | c in m :: m[c] == Members(whs[..i], cluster, c)
    {
      var w := whs[i];
      var c := cluster(w);
      MembersPresent(whs[..i], cluster, c);
      assert whs[..i + 1][..i] == whs[..i];
      if c in m {
        m := m[c := m[c] + [w]];
      } else {
        m := m[c := [w]];
      }
    }
    assert whs[..|whs|] == whs;
  }

  /** `sorted_clusters`. */
  method OrderClusters(keys: set<string>, priority: seq<string>) returns (order: seq<string>)
    ensures ClusterOrder(order, priority, keys)
  {
    var head: seq<string> := [];
    for k := 0 to |priority|
      invariant head == PriorityPresent(priority[..k], keys)
    {
      assert priority[..k + 1][..k] == priority[..k];
      if priority[k] in keys {
        head := head + [priority[k]];
      }
    }
    assert priority[..|priority|] == priority;
    var names := SortStrings(keys);
    var rest: seq<string> := [];
    for j := 0 to |names|
      invariant rest == Unlisted(names[..j], priority)
    {
      assert names[..j + 1][..j] == names[..j];
      if names[j] !in priority {
        rest := rest + [names[j]];
      }
    }
    assert names[..|names|] == names;
    UnlistedFacts(names, priority);
    order := head + rest;
    assert order[..|head|] == head && order[|head|..] == rest;
  }

  /** An inner loop of the chart build: append one entry per warehouse of a
      cluster, in the cluster's order. */
  method AppendEach<T, U>(acc: seq<U>, xs: seq<T>, h: T -> U) returns (r: seq<U>)
    ensures r == acc + Mapped(xs, h)
  {
    r := acc;
    for m := 0 to |xs|
      invariant r == acc + Mapped(xs[..m], h)
    {
      MappedSnoc(xs[..m], xs[m], h);
      assert xs[..m + 1] == xs[..m] + [xs[m]];
      r := r + [h(xs[m])];
    }
    assert xs[..|xs|] == xs;
  }

  /** The loop over `sorted_clusters` that fills `labels` and `clusters`. */
  method LayOut(clustered: map<string, seq<Warehouse>>, whs: seq<Warehouse>, cluster: Warehouse -> string, order: seq<string>)
    returns (labels: seq<string>, infos: seq<ClusterInfo>)
    requires forall c | c in order :: c in clustered && clustered[c] == Members(whs, cluster, c)
    ensures labels == Labels(whs, cluster, order)
    ensures infos == Infos(whs, cluster, order)
  {
    labels, infos := [], [];
    for k := 0 to |order|
      invariant labels == Labels(whs, cluster, order[..k])
      invariant infos == Infos(whs, cluster, order[..k])
    {
      var c := order[k];
      var warehouses := clustered[c];
      var totalStock := SumBy(warehouses, StockOf);
      var start := |labels|;
      ghost var before := Placed(whs, cluster, order[..k]);
      labels := AppendEach(labels, warehouses, NestedKey);
      MappedConcat(before, warehouses, NestedKey);
      PlacedSnoc(whs, cluster, order, k);
      assert labels == Labels(whs, cluster, order[..k + 1]);
      var info := ClusterInfo(c, start, |warehouses|, totalStock, |labels| - 1);
      assert info == InfoFor(whs, cluster, order, k);
      infos := infos + [info];
    }
    assert order[..|order|] == order;
  }

  /** The walk that fills one series' `data`: cluster by cluster, warehouse
      by warehouse. */
  method DataOf(clustered: map<string, seq<Warehouse>>, whs: seq<Warehouse>, cluster: Warehouse -> string, order: seq<string>,
                article: string) returns (data: seq<int>)
    requires forall c | c in order :: c in clustered && clustered[c] == Members(whs, cluster, c)
    ensures data == DataFor(Placed(whs, cluster, order), article)
  {
    var qty := QtyIn(article);
    data := [];
    for k := 0 to |order|
      invariant data == Mapped(Placed(whs, cluster, order[..k]), qty)
    {
      var warehouses := clustered[order[k]];
      data := AppendEach(data, warehouses, qty);
      MappedConcat(Placed(whs, cluster, order[..k]), warehouses, qty);
      assert order[..k + 1][..k] == order[..k];
    }
    assert order[..|order|] == order;
  }

  /** The loop over `all_articles` that fills `datasets`. */
  method BuildDatasets(clustered: map<string, seq<Warehouse>>, whs: seq<Warehouse>, cluster: Warehouse -> string,
                       order: seq<string>, articles: seq<string>, hash: string -> int) returns (datasets: seq<Dataset>)
    requires forall c | c in order :: c in clustered && clustered[c] == Members(whs, cluster, c)
    ensures datasets == Datasets(Placed(whs, cluster, order), articles, hash)
  {
    datasets := [];
    for a := 0 to |articles|
      invariant datasets == Datasets(Placed(whs, cluster, order), articles[..a], hash)
    {
      var article := articles[a];
      var color := ArticleColor(article, hash(article));
      var data := DataOf(clustered, whs, cluster, order, article);
      assert articles[..a + 1][..a] == articles[..a];
      if AnyPositive(data) {
        datasets := datasets + [Dataset(article, data, color, Border, 1)];
      }
    }
    assert articles[..|articles|] == articles;
  }

  // ---------------------------------------------------------------------------
  // Grouping

  /** A cluster has warehouses exactly when it is a key of
      `clustered_warehouses`. */
  lemma {:induction false} MembersPresent(whs: seq<Warehouse>, cluster: Warehouse -> string, c: string)
    ensures |Members(whs, cluster, c)| > 0 <==> c in Present(whs, cluster)
    ensures c in Present(whs, cluster) <==> exists w | w in whs :: cluster(w) == c
  {
    if |whs| > 0 {
      var n := |whs| - 1;
      MembersPresent(whs[..n], cluster, c);
      assert whs == whs[..n] + [whs[n]];
      assert forall w | w in whs[..n] :: w in whs;
    }
  }

  /** A cluster holds each warehouse of that cluster as often as the input
      does, and no other. */
  lemma {:induction false} MembersCount(whs: seq<Warehouse>, cluster: Warehouse -> string, c: string, x: Warehouse)
    ensures multiset(Members(whs, cluster, c))[x] == if cluster(x) == c then multiset(whs)[x] else 0
  {
    if |whs| > 0 {
      var n := |whs| - 1;
      MembersCount(whs[..n], cluster, c, x);
      assert whs == whs[..n] + [whs[n]];
    }
  }

  // ---------------------------------------------------------------------------
  // Ordering

  lemma {:induction false} PriorityPresentMembers(priority: seq<string>, present: set<string>)
    ensures forall x :: x in PriorityPresent(priority, present) <==> x in priority && x in present
    ensures Distinct(priority) ==> Distinct(PriorityPresent(priority, present))
  {
    if |priority| > 0 {
      var n := |priority| - 1;
      PriorityPresentMembers(priority[..n], present);
      assert priority == priority[..n] + [priority[n]];
      if Distinct(priority) {
        assert Distinct(priority[..n]);
        assert priority[n] !in priority[..n];
      }
    }
  }

  lemma {:induction false} UnlistedFacts(names: seq<string>, priority: seq<string>)
    ensures forall x :: x in Unlisted(names, priority) <==> x in names && x !in priority
    ensures Ascending(names) ==> Ascending(Unlisted(names, priority))
  {
    if |names| > 0 {
      var n := |names| - 1;
      UnlistedFacts(names[..n], priority);
      assert names == names[..n] + [names[n]];
      if Ascending(names) {
        var u := Unlisted(names[..n], priority);
        assert Ascending(names[..n]);
        forall i | 0 <= i < |u| ensures Less(u[i], names[n]) {
          assert u[i] in names[..n];
          var j :| 0 <= j < n && names[j] == u[i];
        }
      }
    }
  }

  /** An ascending list has no repeats. */
  lemma AscendingDistinct(r: seq<string>)
    requires Ascending(r)
    ensures Distinct(r)
  {
    forall i, j | 0 <= i < j < |r| ensures r[i] != r[j] {
      LessIrreflexive(r[i]);
    }
  }

  /** Two ascending lists with the same elements are the same list. */
  lemma {:induction false} AscendingSame(r1: seq<string>, r2: seq<string>)
    requires Ascending(r1) && Ascending(r2)
    requires forall x :: x in r1 <==> x in r2
    ensures r1 == r2
    decreases |r1|
  {
    if |r1| > 0 { assert r1[0] in r2; }
    if |r2| > 0 { assert r2[0] in r1; }
    if |r1| > 0 && |r2| > 0 {
      assert r1[0] in r1 && r2[0] in r2;
      if r1[0] != r2[0] {
        var i :| 0 <= i < |r2| && r2[i] == r1[0];
        var j :| 0 <= j < |r1| && r1[j] == r2[0];
        assert Less(r2[0], r1[0]) && Less(r1[0], r2[0]);
        LessTransitive(r1[0], r2[0], r1[0]);
        LessIrreflexive(r1[0]);
        assert false;
      }
      forall x ensures x in r1[1..] <==> x in r2[1..] {
        if x in r1[1..] {
          var i :| 1 <= i < |r1| && r1[i] == x;
          LessIrreflexive(x);
          assert x in r2 && x != r2[0];
          var k :| 0 <= k < |r2| && r2[k] == x;
          assert r2[1..][k - 1] == x;
        }
        if x in r2[1..] {
          var i :| 1 <= i < |r2| && r2[i] == x;
          LessIrreflexive(x);
          assert x in r1 && x != r1[0];
          var k :| 0 <= k < |r1| && r1[k] == x;
          assert r1[1..][k - 1] == x;
        }
      }
      AscendingSame(r1[1..], r2[1..]);
      assert r1 == [r1[0]] + r1[1..] && r2 == [r2[0]] + r2[1..];
    }
  }

  /** `sorted_clusters` lists every present cluster once and nothing else. */
  lemma OrderMembers(order: seq<string>, priority: seq<string>, present: set<string>)
    requires ClusterOrder(order, priority, present)
    ensures forall c :: c in order <==> c in present
    ensures Distinct(priority) ==> Distinct(order)
  {
    var head := PriorityPresent(priority, present);
    var rest := order[|head|..];
    PriorityPresentMembers(priority, present);
    assert order == head + rest;
    AscendingDistinct(rest);
    if Distinct(priority) {
      DistinctConcat(head, rest);
    }
  }

  /** Two lists without repeats and without common names have none when
      joined. */
  lemma DistinctConcat(a: seq<string>, b: seq<string>)
    requires Distinct(a) && Distinct(b)
    requires forall x | x in a :: x !in b
    ensures Distinct(a + b)
  {
    var ab := a + b;
    forall i, j | 0 <= i < j < |ab| ensures ab[i] != ab[j] {
      if j < |a| {
        assert ab[i] == a[i] && ab[j] == a[j];
      } else if i < |a| {
        assert ab[i] == a[i] && ab[j] == b[j - |a|];
        assert a[i] in a;
      } else {
        assert ab[i] == b[i - |a|] && ab[j] == b[j - |a|];
      }
    }
  }

  /** The description pins `sorted_clusters` down: it admits one order only. */
  lemma ClusterOrderUnique(o1: seq<string>, o2: seq<string>, priority: seq<string>, present: set<string>)
    requires ClusterOrder(o1, priority, present) && ClusterOrder(o2, priority, present)
    ensures o1 == o2
  {
    var head := PriorityPresent(priority, present);
    AscendingSame(o1[|head|..], o2[|head|..]);
    assert o1 == head + o1[|head|..] && o2 == head + o2[|head|..];
  }

  /** Neither priority list repeats a name. */
  lemma PriorityDistinct(mpType: string)
    ensures Distinct(PriorityFor(mpType))
  {
  }

  // ---------------------------------------------------------------------------
  // Layout

  lemma {:induction false} InfoNames(whs: seq<Warehouse>, cluster: Warehouse -> string, order: seq<string>)
    ensures Mapped(Infos(whs, cluster, order), InfoName) == order
  {
    if |order| > 0 {
      var n := |order| - 1;
      InfoNames(whs, cluster, order[..n]);
      var prev := Infos(whs, cluster, order[..n]);
      var info := Infos(whs, cluster, order)[n];
      MappedSnoc(prev, info, InfoName);
      assert order == order[..n] + [order[n]];
    }
  }

  /** One more cluster: its warehouses follow those placed before it, and its
      entry follows theirs. */
  lemma PlacedSnoc(whs: seq<Warehouse>, cluster: Warehouse -> string, order: seq<string>, k: nat)
    requires k < |order|
    ensures Placed(whs, cluster, order[..k + 1]) == Placed(whs, cluster, order[..k]) + Members(whs, cluster, order[k])
    ensures Infos(whs, cluster, order[..k + 1]) == Infos(whs, cluster, order[..k]) + [InfoFor(whs, cluster, order, k)]
  {
    var pre := order[..k + 1];
    assert pre[..k] == order[..k] && pre[k] == order[k];
    assert InfoFor(whs, cluster, pre, k) == InfoFor(whs, cluster, order, k);
  }

  /** The `k`-th entry of `clusters` is the one built for the `k`-th cluster
      when its turn came: it names that cluster, starts where the labels
      placed before it end, counts its warehouses, ends at its last label and
      totals its warehouses' stock. */
  lemma {:induction false} InfosFacts(whs: seq<Warehouse>, cluster: Warehouse -> string, order: seq<string>)
    ensures forall k | 0 <= k < |order| :: Infos(whs, cluster, order)[k] == InfoFor(whs, cluster, order, k)
  {
    if |order| > 0 {
      var n := |order| - 1;
      InfosFacts(whs, cluster, order[..n]);
      forall k | 0 <= k < n ensures InfoFor(whs, cluster, order[..n], k) == InfoFor(whs, cluster, order, k) {
        assert order[..n][..k] == order[..k];
      }
    }
  }

  /** The warehouses placed for the first `k` clusters begin the chart. */
  lemma {:induction false} PlacedPrefix(whs: seq<Warehouse>, cluster: Warehouse -> string, order: seq<string>, k: nat)
    requires k <= |order|
    ensures |Placed(whs, cluster, order[..k])| <= |Placed(whs, cluster, order)|
    ensures Placed(whs, cluster, order)[..|Placed(whs, cluster, order[..k])|] == Placed(whs, cluster, order[..k])
  {
    if k < |order| {
      var n := |order| - 1;
      assert order[..n][..k] == order[..k];
      PlacedPrefix(whs, cluster, order[..n], k);
    } else {
      assert order[..k] == order;
    }
  }

  /** The labels from the `k`-th cluster's `start_index` to its `end_index`
      are the names of its warehouses, and it ends where the warehouses of the
      first `k + 1` clusters end. */
  lemma ClusterRange(whs: seq<Warehouse>, cluster: Warehouse -> string, order: seq<string>, k: nat)
    requires k < |order|
    ensures var info, labels := Infos(whs, cluster, order)[k], Labels(whs, cluster, order);
            && 0 <= info.startIndex <= info.endIndex + 1 <= |labels|
            && labels[info.startIndex..info.endIndex + 1] == Mapped(Members(whs, cluster, order[k]), NestedKey)
            && info.endIndex + 1 == |Placed(whs, cluster, order[..k + 1])|
  {
    var before, ms := Placed(whs, cluster, order[..k]), Members(whs, cluster, order[k]);
    InfosFacts(whs, cluster, order);
    PlacedSnoc(whs, cluster, order, k);
    PlacedPrefix(whs, cluster, order, k + 1);
    MappedSlice(Placed(whs, cluster, order), before, ms, NestedKey);
  }

  /** The clusters tile the labels without gap or overlap, starting at 0 and
      ending at the last label. */
  lemma ClusterRanges(whs: seq<Warehouse>, cluster: Warehouse -> string, order: seq<string>)
    ensures |order| > 0 ==> Infos(whs, cluster, order)[0].startIndex == 0
    ensures |order| > 0 ==> Infos(whs, cluster, order)[|order| - 1].endIndex == |Labels(whs, cluster, order)| - 1
    ensures forall k | 0 <= k < |order| - 1 ::
              Infos(whs, cluster, order)[k + 1].startIndex == Infos(whs, cluster, order)[k].endIndex + 1
  {
    InfosFacts(whs, cluster, order);
    forall k | 0 <= k < |order| - 1
      ensures Infos(whs, cluster, order)[k + 1].startIndex == Infos(whs, cluster, order)[k].endIndex + 1
    {
      ClusterRange(whs, cluster, order, k);
    }
    if |order| > 0 {
      assert order[..0] == [];
      ClusterRange(whs, cluster, order, |order| - 1);
      assert order[..|order|] == order;
    }
  }

  /** Given an order listing each cluster of the input once, every warehouse
      is placed exactly once: the chart has one label per warehouse and the
      clusters' `total_stock` add up to the stock of all warehouses. */
  lemma {:induction false} PlacedCount(whs: seq<Warehouse>, cluster: Warehouse -> string, order: seq<string>, x: Warehouse)
    requires Distinct(order)
    ensures multiset(Placed(whs, cluster, order))[x] == if cluster(x) in order then multiset(whs)[x] else 0
  {
    if |order| > 0 {
      var n := |order| - 1;
      assert Distinct(order[..n]);
      PlacedCount(whs, cluster, order[..n], x);
      MembersCount(whs, cluster, order[n], x);
      assert order == order[..n] + [order[n]];
      assert order[n] !in order[..n];
    }
  }

  lemma {:induction false} InfosStock(whs: seq<Warehouse>, cluster: Warehouse -> string, order: seq<string>)
    ensures SumBy(Infos(whs, cluster, order), InfoStock) == SumBy(Placed(whs, cluster, order), StockOf)
  {
    if |order| > 0 {
      var n := |order| - 1;
      InfosStock(whs, cluster, order[..n]);
      var prev := Infos(whs, cluster, order[..n]);
      SumByAppend(prev, [Infos(whs, cluster, order)[n]], InfoStock);
      SumByAppend(Placed(whs, cluster, order[..n]), Members(whs, cluster, order[n]), StockOf);
    }
  }

  lemma Coverage(whs: seq<Warehouse>, cluster: Warehouse -> string, order: seq<string>)
    requires Distinct(order)
    requires forall c :: c in order <==> c in Present(whs, cluster)
    ensures multiset(Placed(whs, cluster, order)) == multiset(whs)
    ensures |Labels(whs, cluster, order)| == |whs|
    ensures SumBy(Infos(whs, cluster, order), InfoStock) == SumBy(whs, StockOf)
  {
    var p := Placed(whs, cluster, order);
    forall x ensures multiset(p)[x] == multiset(whs)[x] {
      PlacedCount(whs, cluster, order, x);
      if x in whs {
        MembersPresent(whs, cluster, cluster(x));
      }
    }
    assert multiset(p) == multiset(whs);
    assert |multiset(p)| == |multiset(whs)|;
    InfosStock(whs, cluster, order);
    SumByPermutation(p, whs, StockOf);
  }

  /** In a chart laid out in `sorted_clusters` order every cluster has at
      least one warehouse, each warehouse has one label and the clusters'
      stock adds up to that of all warehouses. */
  lemma ChartLayout(whs: seq<Warehouse>, mpType: string, order: seq<string>, articles: seq<string>, hash: string -> int)
    requires ClusterOrder(order, PriorityFor(mpType), Present(whs, ClusterFor(mpType)))
    ensures forall info | info in ChartOf(whs, ClusterFor(mpType), order, articles, hash).clusters ::
              info.warehouseCount >= 1
    ensures |ChartOf(whs, ClusterFor(mpType), order, articles, hash).labels| == |whs|
    ensures multiset(Placed(whs, ClusterFor(mpType), order)) == multiset(whs)
    ensures SumBy(ChartOf(whs, ClusterFor(mpType), order, articles, hash).clusters, InfoStock) == SumBy(whs, StockOf)
  {
    var cluster := ClusterFor(mpType);
    PriorityDistinct(mpType);
    OrderMembers(order, PriorityFor(mpType), Present(whs, cluster));
    Coverage(whs, cluster, order);
    InfosFacts(whs, cluster, order);
    var infos := Infos(whs, cluster, order);
    forall info | info in infos ensures info.warehouseCount >= 1 {
      var k :| 0 <= k < |infos| && infos[k] == info;
      MembersPresent(whs, cluster, order[k]);
    }
  }

  // ---------------------------------------------------------------------------
  // Series

  /** `products.get(article, 0)`: 0 when the warehouse lacks the article, and
      the article's quantity when its products are keyed uniquely. */
  lemma {:induction false} QtyOfFacts(parts: seq<Group<string>>, article: string)
    ensures (forall g | g in parts :: g.key != article) ==> QtyOf(parts, article) == 0
    ensures Unique(parts, KeyOf) ==> forall g | g in parts && g.key == article :: QtyOf(parts, article) == g.sum
  {
    if |parts| > 0 {
      QtyOfFacts(parts[1..], article);
      assert forall g | g in parts[1..] :: g in parts;
      if Unique(parts, KeyOf) {
        UniqueHead(parts, KeyOf);
        forall g | g in parts && g.key == article ensures QtyOf(parts, article) == g.sum {
          if g != parts[0] {
            var i :| 0 <= i < |parts| && parts[i] == g;
            assert parts[1..][i - 1] == g;
          }
        }
      }
    }
  }

  /** Every series belongs to an article of the list, carries its colour and
      the fixed border, has one value per label (the article's quantity in
      that warehouse) and some positive value; and every listed article with
      a positive quantity somewhere has a series. */
  lemma {:induction false} DatasetsFacts(placed: seq<Warehouse>, articles: seq<string>, hash: string -> int)
    ensures forall ds | ds in Datasets(placed, articles, hash) ::
              && ds.caption in articles
              && ds.backgroundColor == ArticleColor(ds.caption, hash(ds.caption))
              && ds.borderColor == Border && ds.borderWidth == 1
              && |ds.data| == |placed|
              && (forall i | 0 <= i < |placed| :: ds.data[i] == QtyOf(placed[i].parts, ds.caption))
              && AnyPositive(ds.data)
    ensures forall a | a in articles && AnyPositive(DataFor(placed, a)) ::
              exists ds | ds in Datasets(placed, articles, hash) :: ds.caption == a
  {
    if |articles| > 0 {
      var n := |articles| - 1;
      DatasetsFacts(placed, articles[..n], hash);
      assert articles == articles[..n] + [articles[n]];
      assert forall a | a in articles[..n] :: a in articles;
      var prev := Datasets(placed, articles[..n], hash);
      var all := Datasets(placed, articles, hash);
      assert forall ds | ds in prev :: ds in all;
    }
  }
}
