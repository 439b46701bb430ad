/** The aggregations of Scripts/prepare_dashboard_data.py: stock totals per
    product with their warehouse breakdown, the sales summary of one period for
    either marketplace, and the per-period filters of orders and redemptions.
    Reading and writing the JSON files, `parse_date` and the clock are not
    part of this model: rows arrive with their dates already parsed and
    `today` is a parameter. */
module Dashboard {
  import opened Options
  import opened Ranking
  import opened Tally
  import opened Periods
  import opened Colors
  import WbData
  import OzonData

  // ---------------------------------------------------------------------------
  // calculate_total_stocks_by_product

  /** One product of the result: its `quantity` over all rows, the number of
      warehouses holding it, its colour, and `by_warehouse` (a group's `sum`
      is the warehouse's `quantity`, its `count` the number of rows summed). */
  datatype ProductTotal = ProductTotal(article: string, quantity: int, warehousesCount: int, color: string,
                                       byWarehouse: seq<Group<string>>)

  function ProductQuantity(p: ProductTotal): int { p.quantity }
  function ProductArticle(p: ProductTotal): string { p.article }

  function StockArticle(r: WbData.StockRow): string { r.supplierArticle }
  function StockArticleWarehouse(r: WbData.StockRow): (string, string) { (r.supplierArticle, r.warehouseName) }

  /** What a row adds to `products[article]['quantity']`: its quantity, even
      when it is 0 or negative. */
  function ArticleStock(r: WbData.StockRow): seq<Entry<string>> {
    [Entry(r.supplierArticle, 1, r.quantityFull)]
  }

  /** The quantity a row adds to `product_warehouses[article][warehouse]`:
      only a positive one. */
  function PositiveQty(r: WbData.StockRow): int { if r.quantityFull > 0 then r.quantityFull else 0 }
  function PositiveOne(r: WbData.StockRow): int { if r.quantityFull > 0 then 1 else 0 }

  function PositiveStock(r: WbData.StockRow): seq<Entry<(string, string)>> {
    if r.quantityFull > 0 then [Entry(StockArticleWarehouse(r), 1, r.quantityFull)] else []
  }

  /** `by_warehouse` of a product: its warehouses with positive rows, largest
      quantity first. */
  function WarehouseBreakdown(stocks: seq<WbData.StockRow>, article: string): seq<Group<string>> {
    Ranked(Inner(Contribute(stocks, PositiveStock), article), SumOf)
  }

  /** The articles met in the rows. */
  function Articles(stocks: seq<WbData.StockRow>): set<string> {
    set r | r in stocks :: r.supplierArticle
  }

  /** The warehouses holding a positive quantity of `article`. */
  function PositiveWarehouses(stocks: seq<WbData.StockRow>, article: string): set<string> {
    set r | r in stocks && r.supplierArticle == article && r.quantityFull > 0 :: r.warehouseName
  }

  /** The record a product's bucket becomes. */
  function SummaryOf(stocks: seq<WbData.StockRow>, hash: string -> int, g: Group<string>): ProductTotal {
    ProductTotal(g.key, g.sum, |WarehouseBreakdown(stocks, g.key)|, ArticleColor(g.key, hash(g.key)),
                 WarehouseBreakdown(stocks, g.key))
  }

  function Summarize(stocks: seq<WbData.StockRow>, hash: string -> int): Group<string> -> ProductTotal {
    (g: Group<string>) => SummaryOf(stocks, hash, g)
  }

  /** The result of `calculate_total_stocks_by_product(raw_stocks)`, `hash`
      standing for Python's `hash`. */
  function TotalStocksByProduct(stocks: seq<WbData.StockRow>, hash: string -> int): seq<ProductTotal> {
    SortDesc(Mapped(Buckets(Contribute(stocks, ArticleStock)), Summarize(stocks, hash)), ProductQuantity)
  }

  method CalculateTotalStocksByProduct(stocks: seq<WbData.StockRow>, hash: string -> int) returns (r: seq<ProductTotal>)
    ensures r == TotalStocksByProduct(stocks, hash)
  {
    var products, productWarehouses := CollectStocks(stocks);
    var buckets := Accumulate(products);
    var summaries := SummarizeProducts(stocks, hash, buckets, productWarehouses);
    r := SortDesc(summaries, ProductQuantity);
  }

  /** The first walk of `calculate_total_stocks_by_product`: every row adds to
      its product's quantity, and a positive row to its warehouse's. */
  method CollectStocks(stocks: seq<WbData.StockRow>)
    returns (products: seq<Entry<string>>, productWarehouses: seq<Entry<(string, string)>>)
    ensures products == Contribute(stocks, ArticleStock)
    ensures productWarehouses == Contribute(stocks, PositiveStock)
  {
    products, productWarehouses := [], [];
    var i := 0;
    while i < |stocks|
      invariant 0 <= i <= |stocks|
      invariant products == Contribute(stocks[..i], ArticleStock)
      invariant productWarehouses == Contribute(stocks[..i], PositiveStock)
    {
      var item := stocks[i];
      products := products + [Entry(item.supplierArticle, 1, item.quantityFull)];
      if item.quantityFull > 0 {
        productWarehouses := productWarehouses + [Entry((item.supplierArticle, item.warehouseName), 1, item.quantityFull)];
      }
      assert stocks[..i + 1][..i] == stocks[..i];
      i := i + 1;
    }
    assert stocks[..i] == stocks;
  }

  /** The second walk: each product becomes its record, with its warehouses
      sorted by quantity. */
  method SummarizeProducts(stocks: seq<WbData.StockRow>, hash: string -> int, buckets: seq<Group<string>>,
                           productWarehouses: seq<Entry<(string, string)>>) returns (summaries: seq<ProductTotal>)
    requires productWarehouses == Contribute(stocks, PositiveStock)
    ensures summaries == Mapped(buckets, Summarize(stocks, hash))
  {
    ghost var summarize := Summarize(stocks, hash);
    summaries := [];
    var j := 0;
    while j < |buckets|
      invariant 0 <= j <= |buckets|
      invariant summaries == Mapped(buckets[..j], summarize)
    {
      var summary := SummarizeProduct(stocks, hash, buckets[j], productWarehouses);
      MappedStep(buckets, j, summarize, summary);
      summaries := summaries + [summary];
      j := j + 1;
    }
    assert buckets[..j] == buckets;
  }

  /** The record of one product: its warehouses sorted by quantity. */
  method SummarizeProduct(stocks: seq<WbData.StockRow>, hash: string -> int, g: Group<string>,
                          productWarehouses: seq<Entry<(string, string)>>) returns (summary: ProductTotal)
    requires productWarehouses == Contribute(stocks, PositiveStock)
    ensures summary == SummaryOf(stocks, hash, g)
  {
    var whData := Accumulate(Inner(productWarehouses, g.key));
    var byWarehouse := SortDesc(whData, SumOf);
    summary := ProductTotal(g.key, g.sum, |byWarehouse|, ArticleColor(g.key, hash(g.key)), byWarehouse);
  }

  lemma OneArticleStock(stocks: seq<WbData.StockRow>)
    ensures forall r | r in stocks :: OneEntry(ArticleStock, StockArticle, One, WbData.QuantityFull, r)
    ensures forall r | r in stocks :: OneEntry(PositiveStock, StockArticleWarehouse, PositiveOne, PositiveQty, r)
  {
  }

  /** A product's `by_warehouse` lists each of its warehouses with a positive
      row once, largest quantity first, with the positive quantity summed
      there. */
  lemma WarehouseBreakdownFigures(stocks: seq<WbData.StockRow>, article: string)
    ensures Descending(WarehouseBreakdown(stocks, article), SumOf)
    ensures Unique(WarehouseBreakdown(stocks, article), KeyOf)
    ensures forall g | g in WarehouseBreakdown(stocks, article) ::
              && g.sum == SumWhere(stocks, StockArticleWarehouse, (article, g.key), PositiveQty)
              && g.sum > 0
  {
    RankedFacts(Inner(Contribute(stocks, PositiveStock), article), SumOf);
    forall g | g in WarehouseBreakdown(stocks, article)
      ensures && g.sum == SumWhere(stocks, StockArticleWarehouse, (article, g.key), PositiveQty)
              && g.sum > 0
    {
      BreakdownEntry(stocks, article, g);
    }
  }

  /** One warehouse of the breakdown: its quantity is the positive quantity
      summed there, and it is positive. */
  lemma BreakdownEntry(stocks: seq<WbData.StockRow>, article: string, g: Group<string>)
    requires g in WarehouseBreakdown(stocks, article)
    ensures g.sum == SumWhere(stocks, StockArticleWarehouse, (article, g.key), PositiveQty)
    ensures g.sum > 0
  {
    var es := Contribute(stocks, PositiveStock);
    RankedFacts(Inner(es, article), SumOf);
    OneArticleStock(stocks);
    ContributeKeySet(stocks, PositiveStock, StockArticleWarehouse, PositiveOne, PositiveQty);
    InnerKeySet(es, article);
    var counted := set r | r in stocks && Counted(PositiveStock, r) :: StockArticleWarehouse(r);
    InnerFor(es, article, g.key, Sum);
    ContributeRows(stocks, PositiveStock, StockArticleWarehouse, PositiveOne, PositiveQty, (article, g.key));
    assert (article, g.key) in counted;
    var r :| r in stocks && Counted(PositiveStock, r) && StockArticleWarehouse(r) == (article, g.key);
    SumWherePositive(stocks, StockArticleWarehouse, (article, g.key), PositiveQty, r);
  }

  /** The warehouses with an entry for `article` are those holding a positive
      quantity of it. */
  lemma PositiveKeys(stocks: seq<WbData.StockRow>, article: string)
    ensures KeySet(Inner(Contribute(stocks, PositiveStock), article)) == PositiveWarehouses(stocks, article)
  {
    var es := Contribute(stocks, PositiveStock);
    OneArticleStock(stocks);
    ContributeKeySet(stocks, PositiveStock, StockArticleWarehouse, PositiveOne, PositiveQty);
    InnerKeySet(es, article);
    var counted := set r | r in stocks && Counted(PositiveStock, r) :: StockArticleWarehouse(r);
    var a, b := KeySet(Inner(es, article)), PositiveWarehouses(stocks, article);
    forall w | w in a ensures w in b {
      assert (article, w) in KeySet(es);
      assert (article, w) in counted;
      var r :| r in stocks && Counted(PositiveStock, r) && StockArticleWarehouse(r) == (article, w);
    }
    forall w | w in b ensures w in a {
      var r :| r in stocks && r.supplierArticle == article && r.quantityFull > 0 && r.warehouseName == w;
      assert Counted(PositiveStock, r);
      assert (article, w) in counted;
    }
  }

  /** `warehouses_count == len(by_warehouse)`, and both count exactly the
      warehouses holding a positive quantity of the product. */
  lemma WarehouseBreakdownKeys(stocks: seq<WbData.StockRow>, article: string)
    ensures (set g | g in WarehouseBreakdown(stocks, article) :: g.key) == PositiveWarehouses(stocks, article)
    ensures |WarehouseBreakdown(stocks, article)| == |PositiveWarehouses(stocks, article)|
  {
    var es := Inner(Contribute(stocks, PositiveStock), article);
    var bw := Ranked(es, SumOf);
    RankedKeySet(es, SumOf);
    RankedFacts(es, SumOf);
    PositiveKeys(stocks, article);
    var ws := PositiveWarehouses(stocks, article);
    forall g | g in bw ensures KeyOf(g) in ws {
      assert g.key in KeySet(es);
    }
    forall k | k in ws ensures exists g | g in bw :: KeyOf(g) == k {
      assert k in KeySet(es);
      var g :| g in bw && g.key == k;
    }
    UniqueCount(bw, KeyOf, ws);
  }

  /** What a product's record says, given that its bucket holds the product's
      rows. */
  lemma SummaryFacts(stocks: seq<WbData.StockRow>, hash: string -> int, g: Group<string>)
    requires BucketOf(g, Contribute(stocks, ArticleStock))
    ensures var p := SummaryOf(stocks, hash, g);
            && p.quantity == SumWhere(stocks, StockArticle, p.article, WbData.QuantityFull)
            && p.color == ArticleColor(p.article, hash(p.article))
            && p.byWarehouse == WarehouseBreakdown(stocks, p.article)
            && p.warehousesCount == |p.byWarehouse| == |PositiveWarehouses(stocks, p.article)|
  {
    OneArticleStock(stocks);
    ContributeRows(stocks, ArticleStock, StockArticle, One, WbData.QuantityFull, g.key);
    WarehouseBreakdownKeys(stocks, g.key);
  }

  /** Every product appears once, largest quantity first; its `quantity`
      sums all of its rows, non-positive ones included; its colour is that of
      its article; its `by_warehouse` is its breakdown over positive rows, and
      `warehouses_count` the number of warehouses holding it. */
  lemma TotalStocksByProductFigures(stocks: seq<WbData.StockRow>, hash: string -> int)
    ensures Descending(TotalStocksByProduct(stocks, hash), ProductQuantity)
    ensures Unique(TotalStocksByProduct(stocks, hash), ProductArticle)
    ensures forall p | p in TotalStocksByProduct(stocks, hash) ::
              && p.quantity == SumWhere(stocks, StockArticle, p.article, WbData.QuantityFull)
              && p.color == ArticleColor(p.article, hash(p.article))
              && p.byWarehouse == WarehouseBreakdown(stocks, p.article)
              && p.warehousesCount == |p.byWarehouse| == |PositiveWarehouses(stocks, p.article)|
  {
    var es := Contribute(stocks, ArticleStock);
    var gs, h := Buckets(es), Summarize(stocks, hash);
    var ms, r := Mapped(gs, h), TotalStocksByProduct(stocks, hash);
    assert Unique(r, ProductArticle) by {
      BucketsFacts(es);
      assert forall g | g in gs :: ProductQuantity(h(g)) == SumOf(g) && ProductArticle(h(g)) == KeyOf(g);
      MappedOrder(gs, h, SumOf, ProductQuantity, KeyOf, ProductArticle);
      UniquePermutation(ms, r, ProductArticle);
    }
    assert forall p | p in r :: exists i | 0 <= i < |gs| :: p == h(gs[i]) by {
      PermutationMembers(ms, r);
      MappedMembers(gs, h);
    }
    BucketsFacts(es);
    forall p | p in r
      ensures && p.quantity == SumWhere(stocks, StockArticle, p.article, WbData.QuantityFull)
              && p.color == ArticleColor(p.article, hash(p.article))
              && p.byWarehouse == WarehouseBreakdown(stocks, p.article)
              && p.warehousesCount == |p.byWarehouse| == |PositiveWarehouses(stocks, p.article)|
    {
      var i :| 0 <= i < |gs| && p == h(gs[i]);
      assert gs[i] in gs;
      SummaryFacts(stocks, hash, gs[i]);
    }
  }

  /** The articles of the buckets are the articles of the rows. */
  lemma BucketKeys(stocks: seq<WbData.StockRow>)
    ensures forall g | g in Buckets(Contribute(stocks, ArticleStock)) :: KeyOf(g) in Articles(stocks)
    ensures forall k | k in Articles(stocks) :: exists g | g in Buckets(Contribute(stocks, ArticleStock)) :: KeyOf(g) == k
  {
    var es := Contribute(stocks, ArticleStock);
    var gs := Buckets(es);
    BucketsFacts(es);
    OneArticleStock(stocks);
    ContributeKeySet(stocks, ArticleStock, StockArticle, One, WbData.QuantityFull);
    var keys := KeySet(es);
    var counted := set r | r in stocks && Counted(ArticleStock, r) :: StockArticle(r);
    var b := Articles(stocks);
    forall g | g in gs ensures KeyOf(g) in b {
      assert BucketOf(g, es);
      assert g.key in keys;
      var r :| r in stocks && Counted(ArticleStock, r) && StockArticle(r) == g.key;
    }
    forall k | k in b ensures exists g | g in gs :: KeyOf(g) == k {
      var r :| r in stocks && r.supplierArticle == k;
      assert Counted(ArticleStock, r);
      assert k in counted;
      assert k in keys;
      var g :| g in gs && g.key == k;
    }
  }

  /** The products listed are exactly the articles met in the rows. */
  lemma TotalStocksByProductKeys(stocks: seq<WbData.StockRow>, hash: string -> int)
    ensures (set p | p in TotalStocksByProduct(stocks, hash) :: p.article) == Articles(stocks)
  {
    var gs, h := Buckets(Contribute(stocks, ArticleStock)), Summarize(stocks, hash);
    var r := TotalStocksByProduct(stocks, hash);
    BucketKeys(stocks);
    PermutedMapKeys(gs, h, r, KeyOf, ProductArticle, Articles(stocks));
    KeysCovered(r, ProductArticle, Articles(stocks));
  }

  /** The quantities of all products add up to the quantity of all rows. */
  lemma TotalStocksByProductTotal(stocks: seq<WbData.StockRow>, hash: string -> int)
    ensures SumBy(TotalStocksByProduct(stocks, hash), ProductQuantity) == SumBy(stocks, WbData.QuantityFull)
  {
    var es := Contribute(stocks, ArticleStock);
    var gs, h := Buckets(es), Summarize(stocks, hash);
    BucketsFacts(es);
    OneArticleStock(stocks);
    ContributeTotals(stocks, ArticleStock, StockArticle, One, WbData.QuantityFull);
    MappedSum(gs, h, SumOf, ProductQuantity);
    SumByPermutation(Mapped(gs, h), TotalStocksByProduct(stocks, hash), ProductQuantity);
  }

  // ---------------------------------------------------------------------------
  // aggregate_sales_data

  /** The result of `aggregate_sales_data`: `revenue`, `orders_count`,
      `sales_by_warehouse` (each with its `by_product`), `sales_by_region`
      and `sales_by_product` (each with its `by_warehouse`). In a `Nested` or
      a `Group`, `count` is the field `count` and `sum` the field `revenue`. */
  datatype SalesSummary = SalesSummary(revenue: int, ordersCount: int, byWarehouse: seq<Nested<string, string>>,
                                       byRegion: seq<Group<string>>, byProduct: seq<Nested<string, string>>)

  const TopCount: nat := 15

  function OrderWarehouseArticle(o: WbData.OrderRow): (string, string) { (o.warehouseName, o.supplierArticle) }

  /** What a Wildberries order adds to `by_warehouse[wh]` and to its
      `by_product[article]`. */
  function WarehouseArticleOrder(o: WbData.OrderRow): seq<Entry<(string, string)>> {
    [Entry(OrderWarehouseArticle(o), 1, WbData.Price(o))]
  }

  /** `sales_by_warehouse` for Wildberries: the 15 warehouses of most revenue,
      each with its products, most orders first. */
  function WbSalesByWarehouse(orders: seq<WbData.OrderRow>): seq<Nested<string, string>> {
    RankParts(Take(SortedNest(Contribute(orders, WarehouseArticleOrder)), TopCount), CountOf)
  }

  /** `aggregate_sales_data(sales_list, 'wb')`. */
  function SalesWb(orders: seq<WbData.OrderRow>): SalesSummary {
    SalesSummary(SumBy(orders, WbData.Price), |orders|, WbSalesByWarehouse(orders),
                 Take(WbData.OrdersByRegion(orders), TopCount), WbData.OrdersByProduct(orders))
  }

  method AggregateSalesWb(orders: seq<WbData.OrderRow>) returns (s: SalesSummary)
    ensures s == SalesWb(orders)
  {
    var totalRevenue, ordersCount := 0, 0;
    var byWarehouse: seq<Entry<(string, string)>> := [];
    var byRegion: seq<Entry<string>> := [];
    var byProduct: seq<Entry<(string, string)>> := [];
    var i := 0;
    while i < |orders|
      invariant 0 <= i <= |orders|
      invariant totalRevenue == SumBy(orders[..i], WbData.Price)
      invariant ordersCount == i
      invariant byWarehouse == Contribute(orders[..i], WarehouseArticleOrder)
      invariant byRegion == Contribute(orders[..i], WbData.RegionOrder)
      invariant byProduct == Contribute(orders[..i], WbData.ArticleWarehouseOrder)
    {
      var item := orders[i];
      ordersCount := ordersCount + 1;
      var price := WbData.Price(item);
      SumByAppend(orders[..i], [item], WbData.Price);
      totalRevenue := totalRevenue + price;
      byWarehouse := byWarehouse + [Entry((item.warehouseName, item.supplierArticle), 1, price)];
      byRegion := byRegion + [Entry(item.regionName, 1, price)];
      byProduct := byProduct + [Entry((item.supplierArticle, item.warehouseName), 1, price)];
      assert orders[..i + 1][..i] == orders[..i];
      assert orders[..i + 1] == orders[..i] + [item];
      i := i + 1;
    }
    assert orders[..i] == orders;
    var warehouses := AccumulateNested(byWarehouse);
    var sortedWarehouses := SortEachParts(Take(SortDesc(warehouses, NestedSum), TopCount), CountOf);
    var regions := Accumulate(byRegion);
    var sortedRegions := Take(SortDesc(regions, SumOf), TopCount);
    var products := AccumulateNested(byProduct);
    var sortedProducts := SortEachParts(SortDesc(products, NestedSum), SumOf);
    s := SalesSummary(totalRevenue, ordersCount, sortedWarehouses, sortedRegions, sortedProducts);
  }

  lemma OneWarehouseArticleOrder(orders: seq<WbData.OrderRow>)
    ensures forall o | o in orders :: OneEntry(WarehouseArticleOrder, OrderWarehouseArticle, One, WbData.Price, o)
                                      && WbData.OrderWarehouse(o) == OrderWarehouseArticle(o).0
  {
  }

  /** The kept warehouses are the top 15 by revenue, each once, largest
      first, and a warehouse cut holds no more revenue than any kept; each
      holds the number and value of its orders, split among its products,
      most orders first, each product with the number and value of its
      orders from that warehouse. */
  lemma WbSalesByWarehouseFigures(orders: seq<WbData.OrderRow>)
    ensures |WbSalesByWarehouse(orders)| <= TopCount
    ensures Descending(WbSalesByWarehouse(orders), NestedSum)
    ensures Unique(WbSalesByWarehouse(orders), NestedKey)
    ensures forall w | w in WbSalesByWarehouse(orders) ::
              && w.count == SumWhere(orders, WbData.OrderWarehouse, w.key, One)
              && w.sum == SumWhere(orders, WbData.OrderWarehouse, w.key, WbData.Price)
              && AddsUp(w)
              && Descending(w.parts, CountOf)
              && Unique(w.parts, KeyOf)
    ensures forall w, g | w in WbSalesByWarehouse(orders) && g in w.parts ::
              && g.count == SumWhere(orders, OrderWarehouseArticle, (w.key, g.key), One)
              && g.sum == SumWhere(orders, OrderWarehouseArticle, (w.key, g.key), WbData.Price)
    ensures forall v, w | v in SortedNest(Contribute(orders, WarehouseArticleOrder)) && w in WbSalesByWarehouse(orders) ::
              v.key in OuterKeys(WbSalesByWarehouse(orders)) || v.sum <= w.sum
    ensures |WbSalesByWarehouse(orders)| < TopCount ==> SumBy(WbSalesByWarehouse(orders), NestedCount) == |orders|
  {
    var es := Contribute(orders, WarehouseArticleOrder);
    var all := SortedNest(es);
    var top := Take(all, TopCount);
    var ws := WbSalesByWarehouse(orders);
    SortedNestFacts(es);
    OneWarehouseArticleOrder(orders);
    TakeDescending(all, TopCount, NestedSum);
    assert Unique(top, NestedKey) by {
      forall i, j | 0 <= i < j < |top| ensures top[i].key != top[j].key {
        assert top[i] == all[i] && top[j] == all[j];
      }
    }
    RankPartsFacts(top, es, CountOf);
    RankPartsOrder(top, CountOf);
    RankPartsSums(top, CountOf);
    forall w | w in ws
      ensures && w.count == SumWhere(orders, WbData.OrderWarehouse, w.key, One)
              && w.sum == SumWhere(orders, WbData.OrderWarehouse, w.key, WbData.Price)
              && forall g | g in w.parts ::
                   && g.count == SumWhere(orders, OrderWarehouseArticle, (w.key, g.key), One)
                   && g.sum == SumWhere(orders, OrderWarehouseArticle, (w.key, g.key), WbData.Price)
    {
      NestedRows(orders, WarehouseArticleOrder, OrderWarehouseArticle, WbData.OrderWarehouse, One, WbData.Price, w);
    }
    RankPartsTop(all, TopCount, CountOf);
    ContributeTotals(orders, WarehouseArticleOrder, OrderWarehouseArticle, One, WbData.Price);
    SumByOnes(orders, One);
  }

  /** `orders_count` counts the orders; `revenue` sums their prices and equals
      the revenue of all products, whose counts add up to `orders_count`; each
      product's `count` is the sum of its `by_warehouse` counts; at most 15
      regions are kept, the ones of most revenue. */
  lemma SalesWbFigures(orders: seq<WbData.OrderRow>)
    ensures SalesWb(orders).ordersCount == |orders|
    ensures SumBy(SalesWb(orders).byProduct, NestedCount) == SalesWb(orders).ordersCount
    ensures SumBy(SalesWb(orders).byProduct, NestedSum) == SalesWb(orders).revenue
    ensures forall p | p in SalesWb(orders).byProduct :: AddsUp(p)
    ensures |SalesWb(orders).byRegion| <= TopCount
    ensures Descending(SalesWb(orders).byRegion, SumOf)
    ensures forall v, w | v in WbData.OrdersByRegion(orders) && w in SalesWb(orders).byRegion ::
              v in SalesWb(orders).byRegion || v.sum <= w.sum
  {
    WbData.OrdersByProductTotals(orders);
    WbData.OrdersByProductFigures(orders);
    WbData.OrdersByRegionFigures(orders);
    TakeDescending(WbData.OrdersByRegion(orders), TopCount, SumOf);
    TakeTop(WbData.OrdersByRegion(orders), TopCount, SumOf);
  }

  /** A summary of Ozon postings has no product breakdown per warehouse. */
  function Unbroken(g: Group<string>): Nested<string, string> {
    Nested(g.key, g.count, g.sum, [])
  }

  /** `aggregate_sales_data(sales_list, 'ozon')`. */
  function SalesOzon(ps: seq<OzonData.Posting>): SalesSummary {
    SalesSummary(SumBy(ps, OzonData.PostingValue), |ps|,
                 Mapped(Take(OzonData.OrdersByWarehouse(ps), TopCount), Unbroken),
                 Take(OzonData.OrdersByRegion(ps), TopCount), OzonData.SalesByProduct(ps))
  }

  method AggregateSalesOzon(ps: seq<OzonData.Posting>) returns (s: SalesSummary)
    ensures s == SalesOzon(ps)
  {
    var totalRevenue, ordersCount := OzonRevenue(ps);
    var byWarehouse, byRegion := OzonData.AggregateOrdersByWarehouseAndRegion(ps);
    var sortedWarehouses := Unbreak(Take(byWarehouse, TopCount));
    var sortedProducts := OzonData.AggregateSalesByProduct(ps);
    s := SalesSummary(totalRevenue, ordersCount, sortedWarehouses, Take(byRegion, TopCount), sortedProducts);
  }

  /** The walk over the postings that totals `revenue` and counts them. */
  method OzonRevenue(ps: seq<OzonData.Posting>) returns (totalRevenue: int, ordersCount: int)
    ensures totalRevenue == SumBy(ps, OzonData.PostingValue)
    ensures ordersCount == |ps|
  {
    totalRevenue, ordersCount := 0, 0;
    var i := 0;
    while i < |ps|
      invariant 0 <= i <= |ps|
      invariant totalRevenue == SumBy(ps[..i], OzonData.PostingValue)
      invariant ordersCount == i
    {
      var item := ps[i];
      ordersCount := ordersCount + 1;
      var price := OzonData.OrderValue(item);
      SumByAppend(ps[..i], [item], OzonData.PostingValue);
      assert ps[..i + 1] == ps[..i] + [item];
      totalRevenue := totalRevenue + price;
      i := i + 1;
    }
    assert ps[..i] == ps;
  }

  /** The Ozon warehouses as dashboard entries, with no product breakdown. */
  method Unbreak(top: seq<Group<string>>) returns (sortedWarehouses: seq<Nested<string, string>>)
    ensures sortedWarehouses == Mapped(top, Unbroken)
  {
    sortedWarehouses := [];
    var j := 0;
    while j < |top|
      invariant 0 <= j <= |top|
      invariant sortedWarehouses == Mapped(top[..j], Unbroken)
    {
      MappedStep(top, j, Unbroken, Nested(top[j].key, top[j].count, top[j].sum, []));
      sortedWarehouses := sortedWarehouses + [Nested(top[j].key, top[j].count, top[j].sum, [])];
      j := j + 1;
    }
    assert top[..j] == top;
  }

  /** `orders_count` counts the postings; at most 15 warehouses and regions,
      the ones of most revenue (one cut holds no more than any kept), are
      kept, the warehouses with an empty product
      breakdown; when fewer than 15 warehouses are kept they account for every
      posting and all of `revenue`; each product's `count` is the sum of its
      `by_warehouse` counts. */
  lemma SalesOzonFigures(ps: seq<OzonData.Posting>)
    ensures SalesOzon(ps).ordersCount == |ps|
    ensures |SalesOzon(ps).byWarehouse| <= TopCount && |SalesOzon(ps).byRegion| <= TopCount
    ensures Descending(SalesOzon(ps).byWarehouse, NestedSum) && Descending(SalesOzon(ps).byRegion, SumOf)
    ensures forall w | w in SalesOzon(ps).byWarehouse :: w.parts == []
    ensures |SalesOzon(ps).byWarehouse| < TopCount ==>
              && SumBy(SalesOzon(ps).byWarehouse, NestedCount) == SalesOzon(ps).ordersCount
              && SumBy(SalesOzon(ps).byWarehouse, NestedSum) == SalesOzon(ps).revenue
    ensures forall p | p in SalesOzon(ps).byProduct :: AddsUp(p)
    ensures forall v, w | v in OzonData.OrdersByWarehouse(ps) && w in SalesOzon(ps).byWarehouse ::
              Unbroken(v) in SalesOzon(ps).byWarehouse || v.sum <= w.sum
    ensures forall v, w | v in OzonData.OrdersByRegion(ps) && w in SalesOzon(ps).byRegion ::
              v in SalesOzon(ps).byRegion || v.sum <= w.sum
  {
    OzonWarehousesTop(ps);
    OzonRegionsTop(ps);
    var all := OzonData.OrdersByWarehouse(ps);
    var top := Take(all, TopCount);
    OzonData.OrdersByWarehouseFigures(ps);
    OzonData.OrdersByRegionFigures(ps);
    OzonData.OrdersByWarehouseAndRegionTotals(ps);
    OzonData.SalesByProductFigures(ps);
    TakeDescending(all, TopCount, SumOf);
    TakeDescending(OzonData.OrdersByRegion(ps), TopCount, SumOf);
    MappedOrder(top, Unbroken, SumOf, NestedSum, KeyOf, NestedKey);
    MappedMembers(top, Unbroken);
    MappedSum(top, Unbroken, CountOf, NestedCount);
    MappedSum(top, Unbroken, SumOf, NestedSum);
  }

  /** The Ozon warehouses kept are the top 15 by revenue: a warehouse cut
      holds no more revenue than any warehouse kept. */
  lemma OzonWarehousesTop(ps: seq<OzonData.Posting>)
    ensures forall v, w | v in OzonData.OrdersByWarehouse(ps) && w in SalesOzon(ps).byWarehouse ::
              Unbroken(v) in SalesOzon(ps).byWarehouse || v.sum <= w.sum
  {
    var all := OzonData.OrdersByWarehouse(ps);
    var top := Take(all, TopCount);
    var ws := SalesOzon(ps).byWarehouse;
    OzonData.OrdersByWarehouseFigures(ps);
    TakeTop(all, TopCount, SumOf);
    forall v, w | v in all && w in ws ensures Unbroken(v) in ws || v.sum <= w.sum {
      var i :| 0 <= i < |ws| && ws[i] == w;
      assert top[i] in top && Unbroken(top[i]) == w;
      if v in top {
        var j :| 0 <= j < |top| && top[j] == v;
        assert ws[j] == Unbroken(v);
      }
    }
  }

  /** The Ozon regions kept are the top 15 by revenue. */
  lemma OzonRegionsTop(ps: seq<OzonData.Posting>)
    ensures forall v, w | v in OzonData.OrdersByRegion(ps) && w in SalesOzon(ps).byRegion ::
              v in SalesOzon(ps).byRegion || v.sum <= w.sum
  {
    OzonData.OrdersByRegionFigures(ps);
    TakeTop(OzonData.OrdersByRegion(ps), TopCount, SumOf);
  }

  // ---------------------------------------------------------------------------
  // The period loops

  /** The day of a Wildberries order or sale. */
  function WbOrderDay(o: WbData.OrderRow): Option<int> { WbDay(o.date, o.dateFull) }

  /** The day of an Ozon posting, from `created_at`. */
  function PostingDay(o: OzonData.Posting): Option<int> { ParseDate(o.createdAt) }

  /** A row of the Wildberries sales report: its dates and `forPay` (`None`
      where missing or null). */
  datatype WbSale = WbSale(date: DateText, dateFull: DateText, forPay: Option<int>)

  function SaleDay(s: WbSale): Option<int> { WbDay(s.date, s.dateFull) }

  /** `item.get('forPay', 0) or 0`. */
  function ForPay(s: WbSale): int {
    match s.forPay
    case None => 0
    case Some(v) => v
  }

  /** The day of a finance transaction, from `operation_date`. */
  function TransactionDay(t: OzonData.Transaction): Option<int> { ParseDate(t.operationDate) }

  /** `abs(txn.get('amount', 0))`. */
  function AbsAmount(t: OzonData.Transaction): int { if t.amount < 0 then -t.amount else t.amount }

  /** What the dashboard shows for one period and one marketplace: the sales
      summary and the redemptions. */
  datatype PeriodData = PeriodData(sales: SalesSummary, redemptionsRevenue: int, redemptionsCount: int)

  function WbPeriod(orders: seq<WbData.OrderRow>, sales: seq<WbSale>, p: Period, today: int): PeriodData {
    var kept := Selected(sales, SaleDay, p, today);
    PeriodData(SalesWb(Selected(orders, WbOrderDay, p, today)), SumBy(kept, ForPay), |kept|)
  }

  function OzonPeriod(ps: seq<OzonData.Posting>, ts: seq<OzonData.Transaction>, p: Period, today: int): PeriodData {
    var kept := Selected(ts, TransactionDay, p, today);
    PeriodData(SalesOzon(Selected(ps, PostingDay, p, today)), SumBy(kept, AbsAmount), |kept|)
  }

  /** The sum of a figure over a list, in a loop. */
  method Summed<T>(xs: seq<T>, f: T -> int) returns (total: int)
    ensures total == SumBy(xs, f)
  {
    total := 0;
    var i := 0;
    while i < |xs|
      invariant 0 <= i <= |xs|
      invariant total == SumBy(xs[..i], f)
    {
      SumByAppend(xs[..i], [xs[i]], f);
      assert xs[..i + 1] == xs[..i] + [xs[i]];
      total := total + f(xs[i]);
      i := i + 1;
    }
    assert xs[..i] == xs;
  }

  /** The Wildberries loops of `prepare` over `periods_config`: one entry per
      period, in order. */
  method WbPeriods(orders: seq<WbData.OrderRow>, sales: seq<WbSale>, periods: seq<Period>, today: int) returns (data: seq<PeriodData>)
    ensures data == Mapped(periods, WbPeriodOf(orders, sales, today))
  {
    ghost var f := WbPeriodOf(orders, sales, today);
    data := [];
    for k := 0 to |periods|
      invariant data == Mapped(periods[..k], f)
    {
      var d := PrepareWbPeriod(orders, sales, periods[k], today);
      MappedStep(periods, k, f, d);
      data := data + [d];
    }
    assert periods[..|periods|] == periods;
  }

  /** The data of one Wildberries period. */
  function WbPeriodOf(orders: seq<WbData.OrderRow>, sales: seq<WbSale>, today: int): Period -> PeriodData {
    p => WbPeriod(orders, sales, p, today)
  }

  /** One Wildberries period: filter the orders and aggregate them, then
      filter the sales and total `forPay`. */
  method PrepareWbPeriod(orders: seq<WbData.OrderRow>, sales: seq<WbSale>, p: Period, today: int) returns (d: PeriodData)
    ensures d == WbPeriod(orders, sales, p, today)
  {
    var filteredSales := FilterByPeriod(orders, WbOrderDay, p, today);
    var agg := AggregateSalesWb(filteredSales);
    var filteredRedemptions := FilterByPeriod(sales, SaleDay, p, today);
    var redemptionsRevenue := Summed(filteredRedemptions, ForPay);
    d := PeriodData(agg, redemptionsRevenue, |filteredRedemptions|);
  }

  /** The Ozon loops of `prepare` over `periods_config`: one entry per
      period, in order. */
  method OzonPeriods(ps: seq<OzonData.Posting>, ts: seq<OzonData.Transaction>, periods: seq<Period>, today: int) returns (data: seq<PeriodData>)
    ensures data == Mapped(periods, OzonPeriodOf(ps, ts, today))
  {
    ghost var f := OzonPeriodOf(ps, ts, today);
    data := [];
    for k := 0 to |periods|
      invariant data == Mapped(periods[..k], f)
    {
      var d := PrepareOzonPeriod(ps, ts, periods[k], today);
      MappedStep(periods, k, f, d);
      data := data + [d];
    }
    assert periods[..|periods|] == periods;
  }

  /** The data of one Ozon period. */
  function OzonPeriodOf(ps: seq<OzonData.Posting>, ts: seq<OzonData.Transaction>, today: int): Period -> PeriodData {
    p => OzonPeriod(ps, ts, p, today)
  }

  /** One Ozon period: filter the postings by `created_at` and aggregate
      them, then filter the redemptions by `operation_date` and total their
      absolute amounts. */
  method PrepareOzonPeriod(ps: seq<OzonData.Posting>, ts: seq<OzonData.Transaction>, p: Period, today: int)
    returns (d: PeriodData)
    ensures d == OzonPeriod(ps, ts, p, today)
  {
    var filteredSales := FilterByPeriod(ps, PostingDay, p, today);
    var agg := AggregateSalesOzon(filteredSales);
    var redemptionsFiltered := FilterByPeriod(ts, TransactionDay, p, today);
    var redemptionsRevenue := Summed(redemptionsFiltered, AbsAmount);
    d := PeriodData(agg, redemptionsRevenue, |redemptionsFiltered|);
  }

  /** A sum of non-negative figures is non-negative. */
  lemma {:induction false} SumByNonNegative<T>(xs: seq<T>, f: T -> int)
    requires forall x | x in xs :: f(x) >= 0
    ensures SumBy(xs, f) >= 0
  {
    if |xs| > 0 {
      assert forall x | x in xs[1..] :: x in xs;
      SumByNonNegative(xs[1..], f);
    }
  }

  /** A period whose days lie within a wider one's counts no more orders,
      and no more redemptions, than the wider one. */
  lemma WbPeriodsNest(orders: seq<WbData.OrderRow>, sales: seq<WbSale>, p: Period, q: Period, today: int)
    requires forall d :: InPeriod(p, today, d) ==> InPeriod(q, today, d)
    ensures WbPeriod(orders, sales, p, today).sales.ordersCount <= WbPeriod(orders, sales, q, today).sales.ordersCount
    ensures WbPeriod(orders, sales, p, today).redemptionsCount <= WbPeriod(orders, sales, q, today).redemptionsCount
  {
    SelectedWithin(orders, WbOrderDay, p, q, today);
    SelectedWithin(sales, SaleDay, p, q, today);
  }

  /** The same for Ozon; and its redemption revenue, a sum of absolute
      amounts, is never negative. */
  lemma OzonPeriodsNest(ps: seq<OzonData.Posting>, ts: seq<OzonData.Transaction>, p: Period, q: Period, today: int)
    requires forall d :: InPeriod(p, today, d) ==> InPeriod(q, today, d)
    ensures OzonPeriod(ps, ts, p, today).sales.ordersCount <= OzonPeriod(ps, ts, q, today).sales.ordersCount
    ensures OzonPeriod(ps, ts, p, today).redemptionsCount <= OzonPeriod(ps, ts, q, today).redemptionsCount
    ensures OzonPeriod(ps, ts, p, today).redemptionsRevenue >= 0
  {
    SelectedWithin(ps, PostingDay, p, q, today);
    SelectedWithin(ts, TransactionDay, p, q, today);
    SumByNonNegative(Selected(ts, TransactionDay, p, today), AbsAmount);
  }
}
