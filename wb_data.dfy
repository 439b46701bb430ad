/** The aggregations of Scripts/fetch_wb_data.py over the Wildberries
    statistics reports: stock rows grouped by warehouse (and by product within
    a warehouse), order rows grouped by warehouse, region and product. The
    HTTP fetchers are not part of this model; a row arrives with the defaults
    of its `.get` calls already applied. */
module WbData {
  import opened Options
  import opened Ranking
  import opened Tally
  import opened Text
  import opened Periods

  /** A stocks report row: `warehouseName` and `supplierArticle` default to
      `"Unknown"`, `quantityFull` to 0. */
  datatype StockRow = StockRow(warehouseName: string, supplierArticle: string, quantityFull: int)

  /** An orders report row; `priceWithDisc` is `None` where missing or null.
      Money is in kopecks. `date` and `dateFull` are read only by the period
      filter of the dashboard. */
  datatype OrderRow = OrderRow(warehouseName: string, regionName: string, supplierArticle: string,
                               priceWithDisc: Option<int>, date: DateText, dateFull: DateText)

  function StockWarehouse(r: StockRow): string { r.warehouseName }
  function QuantityFull(r: StockRow): int { r.quantityFull }
  function OrderWarehouse(o: OrderRow): string { o.warehouseName }
  function OrderRegion(o: OrderRow): string { o.regionName }
  function OrderArticle(o: OrderRow): string { o.supplierArticle }

  /** `item.get('priceWithDisc', 0) or 0`: a missing or null price is 0. */
  function Price(o: OrderRow): (r: int)
    ensures o.priceWithDisc.None? ==> r == 0
    ensures o.priceWithDisc.Some? ==> r == o.priceWithDisc.value
  {
    match o.priceWithDisc
    case None => 0
    case Some(p) => p
  }

  // ---------------------------------------------------------------------------
  // aggregate_stocks_by_warehouse

  /** What a stock row adds: 1 to `items_count` and `quantityFull` to
      `quantity` of its warehouse. */
  function WarehouseStock(r: StockRow): seq<Entry<string>> {
    [Entry(r.warehouseName, 1, r.quantityFull)]
  }

  /** The result of `aggregate_stocks_by_warehouse(stocks)`: one group per
      warehouse, its `count` the `items_count` and its `sum` the `quantity`,
      largest quantity first. */
  function StocksByWarehouse(stocks: seq<StockRow>): seq<Group<string>> {
    Ranked(Contribute(stocks, WarehouseStock), SumOf)
  }

  method AggregateStocksByWarehouse(stocks: seq<StockRow>) returns (ws: seq<Group<string>>)
    ensures ws == StocksByWarehouse(stocks)
  {
    var buckets := Accumulate(Contribute(stocks, WarehouseStock));
    ws := SortDesc(buckets, SumOf);
  }

  /** Each warehouse met appears once, and no other; the list is sorted by
      quantity, largest first; a warehouse's `quantity` is the sum of its rows'
      `quantityFull` and its `items_count` the number of its rows, rows of
      quantity 0 included. */
  lemma StocksByWarehouseFigures(stocks: seq<StockRow>)
    ensures Descending(StocksByWarehouse(stocks), SumOf)
    ensures Unique(StocksByWarehouse(stocks), KeyOf)
    ensures (set w | w in StocksByWarehouse(stocks) :: w.key) == (set r | r in stocks :: r.warehouseName)
    ensures forall w | w in StocksByWarehouse(stocks) ::
              && w.sum == SumWhere(stocks, StockWarehouse, w.key, QuantityFull)
              && w.count == SumWhere(stocks, StockWarehouse, w.key, One)
  {
    RankedRows(stocks, WarehouseStock, StockWarehouse, One, QuantityFull, SumOf);
    assert (set r | r in stocks && Counted(WarehouseStock, r) :: r.warehouseName) == (set r | r in stocks :: r.warehouseName);
  }

  /** The quantities add up to the total of the report, and the counts to the
      number of rows. */
  lemma StocksByWarehouseTotals(stocks: seq<StockRow>)
    ensures SumBy(StocksByWarehouse(stocks), SumOf) == SumBy(stocks, QuantityFull)
    ensures SumBy(StocksByWarehouse(stocks), CountOf) == |stocks|
  {
    RankedRows(stocks, WarehouseStock, StockWarehouse, One, QuantityFull, SumOf);
    SumByOnes(stocks, One);
  }

  // ---------------------------------------------------------------------------
  // aggregate_stocks_by_warehouse_and_product

  function WarehouseArticle(r: StockRow): (string, string) { (r.warehouseName, r.supplierArticle) }

  /** 1 for a row that is not skipped. */
  function Stocked(r: StockRow): int { if r.quantityFull == 0 then 0 else 1 }

  /** What a stock row adds to `products[article]` and `total` of its
      warehouse; a row of quantity exactly 0 adds nothing. */
  function WarehouseArticleStock(r: StockRow): seq<Entry<(string, string)>> {
    if r.quantityFull == 0 then [] else [Entry(WarehouseArticle(r), 1, r.quantityFull)]
  }

  /** The articles added to `all_articles`: those of every row not skipped. */
  function StockedArticles(stocks: seq<StockRow>): set<string> {
    set r | r in stocks && r.quantityFull != 0 :: r.supplierArticle
  }

  /** Every warehouse with stock, sorted by `total`, largest first; `parts`
      are its `products` in the order first met. */
  function StockedWarehouses(stocks: seq<StockRow>): seq<Nested<string, string>> {
    SortedNest(Contribute(stocks, WarehouseArticleStock))
  }

  /** The first result of `aggregate_stocks_by_warehouse_and_product(stocks)`:
      the 15 warehouses with the most stock. */
  function StocksByWarehouseAndProduct(stocks: seq<StockRow>): seq<Nested<string, string>> {
    Take(StockedWarehouses(stocks), 15)
  }

  method AggregateStocksByWarehouseAndProduct(stocks: seq<StockRow>)
    returns (ws: seq<Nested<string, string>>, allArticles: seq<string>)
    ensures ws == StocksByWarehouseAndProduct(stocks)
    ensures Ascending(allArticles)
    ensures forall a :: a in allArticles <==> a in StockedArticles(stocks)
    ensures |allArticles| == |StockedArticles(stocks)|
  {
    var nested := AccumulateNested(Contribute(stocks, WarehouseArticleStock));
    var sorted := SortDesc(nested, NestedSum);
    ws := Take(sorted, 15);
    allArticles := SortStrings(StockedArticles(stocks));
  }

  lemma OneStockEntry(stocks: seq<StockRow>)
    ensures forall r | r in stocks :: OneEntry(WarehouseArticleStock, WarehouseArticle, Stocked, QuantityFull, r)
                                      && StockWarehouse(r) == WarehouseArticle(r).0
  {
  }

  /** At most 15 warehouses, each once, largest total first; a warehouse left
      out holds no more than any warehouse kept, and one is left out only when
      15 are kept. */
  lemma StocksByWarehouseAndProductTop(stocks: seq<StockRow>)
    ensures |StocksByWarehouseAndProduct(stocks)| <= 15
    ensures Descending(StocksByWarehouseAndProduct(stocks), NestedSum)
    ensures Unique(StocksByWarehouseAndProduct(stocks), NestedKey)
    ensures forall v, w | v in StockedWarehouses(stocks) && w in StocksByWarehouseAndProduct(stocks) ::
              v in StocksByWarehouseAndProduct(stocks) || v.sum <= w.sum
    ensures |StocksByWarehouseAndProduct(stocks)| < 15 ==> StocksByWarehouseAndProduct(stocks) == StockedWarehouses(stocks)
  {
    var all := StockedWarehouses(stocks);
    SortedNestFacts(Contribute(stocks, WarehouseArticleStock));
    TakeDescending(all, 15, NestedSum);
    TakeUnique(all, 15, NestedKey);
    TakeTop(all, 15, NestedSum);
  }

  /** The warehouses with stock are those with a row of nonzero quantity,
      each once. */
  lemma StockedWarehousesKeys(stocks: seq<StockRow>)
    ensures Unique(StockedWarehouses(stocks), NestedKey)
    ensures (set w | w in StockedWarehouses(stocks) :: w.key)
         == (set r | r in stocks && r.quantityFull != 0 :: r.warehouseName)
  {
    var all := StockedWarehouses(stocks);
    SortedNestFacts(Contribute(stocks, WarehouseArticleStock));
    OneStockEntry(stocks);
    NestedKeys(stocks, WarehouseArticleStock, WarehouseArticle, StockWarehouse, Stocked, QuantityFull, all);
    assert (set r | r in stocks && Counted(WarehouseArticleStock, r) :: StockWarehouse(r))
        == (set r | r in stocks && r.quantityFull != 0 :: r.warehouseName);
  }

  /** A kept warehouse's `total` is the sum of `quantityFull` over its rows and
      equals the sum of its products; a product's quantity is the sum over the
      rows of that warehouse and article; each product appears once and only if
      it has a row of nonzero quantity there, so its article is among
      `all_articles`. */
  lemma StocksByWarehouseAndProductFigures(stocks: seq<StockRow>)
    ensures forall w | w in StocksByWarehouseAndProduct(stocks) ::
              && w.sum == SumWhere(stocks, StockWarehouse, w.key, QuantityFull)
              && SumBy(w.parts, SumOf) == w.sum
              && Unique(w.parts, KeyOf)
              && (forall g | g in w.parts :: g.sum == SumWhere(stocks, WarehouseArticle, (w.key, g.key), QuantityFull))
              && (forall g | g in w.parts :: g.key in StockedArticles(stocks))
  {
    var es, ws := Contribute(stocks, WarehouseArticleStock), StocksByWarehouseAndProduct(stocks);
    SortedNestFacts(es);
    OneStockEntry(stocks);
    forall w | w in ws
      ensures && w.sum == SumWhere(stocks, StockWarehouse, w.key, QuantityFull)
              && SumBy(w.parts, SumOf) == w.sum
              && Unique(w.parts, KeyOf)
              && (forall g | g in w.parts :: g.sum == SumWhere(stocks, WarehouseArticle, (w.key, g.key), QuantityFull))
              && (forall g | g in w.parts :: g.key in StockedArticles(stocks))
    {
      assert w in StockedWarehouses(stocks);
      NestedRows(stocks, WarehouseArticleStock, WarehouseArticle, StockWarehouse, Stocked, QuantityFull, w);
      NestedRowKeys(stocks, WarehouseArticleStock, WarehouseArticle, Stocked, QuantityFull, w);
      forall g | g in w.parts ensures g.key in StockedArticles(stocks) {
        var r :| r in stocks && Counted(WarehouseArticleStock, r) && WarehouseArticle(r) == (w.key, g.key);
        assert r.supplierArticle == g.key;
      }
    }
  }

  // ---------------------------------------------------------------------------
  // aggregate_orders_by_warehouse_and_region

  /** What an order adds to `by_warehouse`: 1 to `count`, its price to
      `revenue`. */
  function WarehouseOrder(o: OrderRow): seq<Entry<string>> {
    [Entry(o.warehouseName, 1, Price(o))]
  }

  /** What an order adds to `by_region`. */
  function RegionOrder(o: OrderRow): seq<Entry<string>> {
    [Entry(o.regionName, 1, Price(o))]
  }

  /** The first result of `aggregate_orders_by_warehouse_and_region`: by
      warehouse, largest revenue first. */
  function OrdersByWarehouse(orders: seq<OrderRow>): seq<Group<string>> {
    Ranked(Contribute(orders, WarehouseOrder), SumOf)
  }

  /** The second result: by region, largest revenue first. */
  function OrdersByRegion(orders: seq<OrderRow>): seq<Group<string>> {
    Ranked(Contribute(orders, RegionOrder), SumOf)
  }

  method AggregateOrdersByWarehouseAndRegion(orders: seq<OrderRow>)
    returns (byWarehouse: seq<Group<string>>, byRegion: seq<Group<string>>)
    ensures byWarehouse == OrdersByWarehouse(orders)
    ensures byRegion == OrdersByRegion(orders)
  {
    var ws := Accumulate(Contribute(orders, WarehouseOrder));
    var rs := Accumulate(Contribute(orders, RegionOrder));
    byWarehouse := SortDesc(ws, SumOf);
    byRegion := SortDesc(rs, SumOf);
  }

  /** Each warehouse of an order appears once, and no other, with the number
      of its orders and the sum of their prices; largest revenue first. */
  lemma OrdersByWarehouseFigures(orders: seq<OrderRow>)
    ensures Descending(OrdersByWarehouse(orders), SumOf)
    ensures Unique(OrdersByWarehouse(orders), KeyOf)
    ensures (set w | w in OrdersByWarehouse(orders) :: w.key) == (set o | o in orders :: o.warehouseName)
    ensures forall w | w in OrdersByWarehouse(orders) ::
              && w.count == SumWhere(orders, OrderWarehouse, w.key, One)
              && w.sum == SumWhere(orders, OrderWarehouse, w.key, Price)
  {
    RankedRows(orders, WarehouseOrder, OrderWarehouse, One, Price, SumOf);
    assert (set o | o in orders && Counted(WarehouseOrder, o) :: OrderWarehouse(o)) == (set o | o in orders :: o.warehouseName);
  }

  /** The same for regions. */
  lemma OrdersByRegionFigures(orders: seq<OrderRow>)
    ensures Descending(OrdersByRegion(orders), SumOf)
    ensures Unique(OrdersByRegion(orders), KeyOf)
    ensures (set g | g in OrdersByRegion(orders) :: g.key) == (set o | o in orders :: o.regionName)
    ensures forall g | g in OrdersByRegion(orders) ::
              && g.count == SumWhere(orders, OrderRegion, g.key, One)
              && g.sum == SumWhere(orders, OrderRegion, g.key, Price)
  {
    RankedRows(orders, RegionOrder, OrderRegion, One, Price, SumOf);
    assert (set o | o in orders && Counted(RegionOrder, o) :: OrderRegion(o)) == (set o | o in orders :: o.regionName);
  }

  /** Both breakdowns account for every order and all of the revenue. */
  lemma OrdersByWarehouseAndRegionTotals(orders: seq<OrderRow>)
    ensures SumBy(OrdersByWarehouse(orders), CountOf) == |orders| == SumBy(OrdersByRegion(orders), CountOf)
    ensures SumBy(OrdersByWarehouse(orders), SumOf) == SumBy(orders, Price) == SumBy(OrdersByRegion(orders), SumOf)
  {
    RankedRows(orders, WarehouseOrder, OrderWarehouse, One, Price, SumOf);
    RankedRows(orders, RegionOrder, OrderRegion, One, Price, SumOf);
    SumByOnes(orders, One);
  }

  // ---------------------------------------------------------------------------
  // aggregate_orders_by_product

  function ArticleWarehouse(o: OrderRow): (string, string) { (o.supplierArticle, o.warehouseName) }

  /** What an order adds to `products[article]` and to its `by_warehouse[wh]`. */
  function ArticleWarehouseOrder(o: OrderRow): seq<Entry<(string, string)>> {
    [Entry(ArticleWarehouse(o), 1, Price(o))]
  }

  /** The result of `aggregate_orders_by_product(orders)`: one entry per
      article, largest revenue first, each with its `by_warehouse` list,
      largest revenue first. */
  function OrdersByProduct(orders: seq<OrderRow>): seq<Nested<string, string>> {
    RankedNest(Contribute(orders, ArticleWarehouseOrder), SumOf)
  }

  method AggregateOrdersByProduct(orders: seq<OrderRow>) returns (ps: seq<Nested<string, string>>)
    ensures ps == OrdersByProduct(orders)
  {
    var nested := AccumulateNested(Contribute(orders, ArticleWarehouseOrder));
    var sorted := SortDesc(nested, NestedSum);
    ps := SortEachParts(sorted, SumOf);
  }

  lemma OneOrderEntry(orders: seq<OrderRow>)
    ensures forall o | o in orders :: OneEntry(ArticleWarehouseOrder, ArticleWarehouse, One, Price, o)
                                      && OrderArticle(o) == ArticleWarehouse(o).0
  {
  }

  /** Each ordered article appears once, and no other, largest revenue first;
      its `count` is the number of its orders and its `revenue` the sum of
      their prices, and its `by_warehouse` list, largest revenue first, splits
      both among the warehouses the article was ordered from. */
  lemma OrdersByProductFigures(orders: seq<OrderRow>)
    ensures Descending(OrdersByProduct(orders), NestedSum)
    ensures Unique(OrdersByProduct(orders), NestedKey)
    ensures forall p | p in OrdersByProduct(orders) ::
              && p.count == SumWhere(orders, OrderArticle, p.key, One)
              && p.sum == SumWhere(orders, OrderArticle, p.key, Price)
              && AddsUp(p)
              && Descending(p.parts, SumOf)
              && Unique(p.parts, KeyOf)
              && (forall g | g in p.parts ::
                    && g.count == SumWhere(orders, ArticleWarehouse, (p.key, g.key), One)
                    && g.sum == SumWhere(orders, ArticleWarehouse, (p.key, g.key), Price))
  {
    var es, ps := Contribute(orders, ArticleWarehouseOrder), OrdersByProduct(orders);
    RankedNestFacts(es, SumOf);
    OneOrderEntry(orders);
    forall p | p in ps
      ensures && p.count == SumWhere(orders, OrderArticle, p.key, One)
              && p.sum == SumWhere(orders, OrderArticle, p.key, Price)
              && (forall g | g in p.parts ::
                    && g.count == SumWhere(orders, ArticleWarehouse, (p.key, g.key), One)
                    && g.sum == SumWhere(orders, ArticleWarehouse, (p.key, g.key), Price))
    {
      NestedRows(orders, ArticleWarehouseOrder, ArticleWarehouse, OrderArticle, One, Price, p);
    }
  }

  /** The products listed are exactly the articles ordered. */
  lemma OrdersByProductKeys(orders: seq<OrderRow>)
    ensures (set p | p in OrdersByProduct(orders) :: p.key) == (set o | o in orders :: o.supplierArticle)
  {
    var es, ps := Contribute(orders, ArticleWarehouseOrder), OrdersByProduct(orders);
    RankedNestFacts(es, SumOf);
    OneOrderEntry(orders);
    NestedKeys(orders, ArticleWarehouseOrder, ArticleWarehouse, OrderArticle, One, Price, ps);
    EveryOrderCounted(orders);
  }

  /** Every order adds an entry. */
  lemma EveryOrderCounted(orders: seq<OrderRow>)
    ensures (set o | o in orders && Counted(ArticleWarehouseOrder, o) :: OrderArticle(o))
         == (set o | o in orders :: o.supplierArticle)
  {
    var a, b := set o | o in orders && Counted(ArticleWarehouseOrder, o) :: OrderArticle(o),
                set o | o in orders :: o.supplierArticle;
    forall k | k in b ensures k in a {
      var o :| o in orders && o.supplierArticle == k;
      assert Counted(ArticleWarehouseOrder, o);
    }
  }

  /** Every order is counted once, in its product and in one warehouse of it. */
  lemma OrdersByProductTotals(orders: seq<OrderRow>)
    ensures SumBy(OrdersByProduct(orders), NestedCount) == |orders|
    ensures SumBy(OrdersByProduct(orders), NestedSum) == SumBy(orders, Price)
  {
    var es := Contribute(orders, ArticleWarehouseOrder);
    RankedNestFacts(es, SumOf);
    OneOrderEntry(orders);
    ContributeTotals(orders, ArticleWarehouseOrder, ArticleWarehouse, One, Price);
    SumByOnes(orders, One);
  }
}
