/** The aggregations of Scripts/fetch_ozon_data.py over the Ozon seller
    reports: FBO stock by warehouse and by product, postings by warehouse,
    region and product, the FBO analytics rows by product and by warehouse,
    and the redemption filter over finance transactions. The HTTP fetchers are
    not part of this model; a row arrives with the defaults of its `.get`
    calls already applied and its prices in kopecks. */
module OzonData {
  import opened Options
  import opened Ranking
  import opened Tally
  import opened Text
  import opened Periods

  /** An entry of the warehouse list; `warehouseId` is `str(warehouse_id)`. */
  datatype WarehouseInfo = WarehouseInfo(warehouseId: string, name: string)

  /** One stock entry of a product: `kind` is its `type` (`''` when missing),
      `warehouseId` is `str(warehouse_id)` (`'Unknown'` when missing). */
  datatype StockEntry = StockEntry(kind: string, warehouseId: string, present: int)

  /** A product of the stock report with its stock entries. */
  datatype StockItem = StockItem(offerId: string, stocks: seq<StockEntry>)

  /** A product line of a posting's `financial_data`; `quantity` defaults to 1. */
  datatype FinancialLine = FinancialLine(price: int, quantity: int)

  /** A product line of a posting (`offer_id`, `price`, `quantity`). */
  datatype ProductLine = ProductLine(offerId: string, price: int, quantity: int)

  /** An FBO posting: its creation date, the warehouse it ships from, the
      delivery `city` and `cluster_to` (`''` when missing), its financial lines
      and its product lines. */
  datatype Posting = Posting(createdAt: DateText, warehouseName: string, city: string, clusterTo: string,
                             financialProducts: seq<FinancialLine>, products: seq<ProductLine>)

  /** A row of the FBO analytics report: `item_code`, `warehouse_name` and
      `int(free_to_sell_amount)`. */
  datatype FboRow = FboRow(itemCode: string, warehouseName: string, freeToSell: int)

  /** A finance transaction. */
  datatype Transaction = Transaction(operationType: string, operationDate: DateText, amount: int)

  // ---------------------------------------------------------------------------
  // The redemption filter

  const Delivered := "OperationAgentDeliveredToCustomer"

  /** The transactions of type `OperationAgentDeliveredToCustomer`, in their
      order. */
  function Redemptions(ts: seq<Transaction>): seq<Transaction> {
    if |ts| == 0 then []
    else
      var n := |ts| - 1;
      Redemptions(ts[..n]) + (if ts[n].operationType == Delivered then [ts[n]] else [])
  }

  /** Exactly the delivered transactions are kept. */
  lemma {:induction false} RedemptionsMembers(ts: seq<Transaction>)
    ensures forall t :: t in Redemptions(ts) <==> t in ts && t.operationType == Delivered
  {
    if |ts| > 0 {
      var n := |ts| - 1;
      RedemptionsMembers(ts[..n]);
      assert ts == ts[..n] + [ts[n]];
      assert forall t :: t in ts <==> t in ts[..n] || t == ts[n];
    }
  }

  /** The filter keeps the original order: filtering two stretches of
      transactions one after the other gives the filtered first stretch, then
      the filtered second. */
  lemma {:induction false} RedemptionsAppend(a: seq<Transaction>, b: seq<Transaction>)
    ensures Redemptions(a + b) == Redemptions(a) + Redemptions(b)
  {
    if |b| == 0 {
      assert a + b == a;
    } else {
      var n := |b| - 1;
      RedemptionsAppend(a, b[..n]);
      assert (a + b)[..|a + b| - 1] == a + b[..n];
    }
  }

  /** Filtering twice changes nothing. */
  lemma {:induction false} RedemptionsIdempotent(ts: seq<Transaction>)
    ensures Redemptions(Redemptions(ts)) == Redemptions(ts)
  {
    if |ts| > 0 {
      var n := |ts| - 1;
      RedemptionsIdempotent(ts[..n]);
      var tail := if ts[n].operationType == Delivered then [ts[n]] else [];
      RedemptionsAppend(Redemptions(ts[..n]), tail);
      if tail != [] {
        assert Redemptions(tail) == Redemptions(tail[..0]) + tail;
      }
    }
  }

  // ---------------------------------------------------------------------------
  // aggregate_stocks_by_warehouse

  /** `wh_map`: warehouse id to name; of several entries with one id, the last
      one wins. */
  function WarehouseNames(ws: seq<WarehouseInfo>): map<string, string> {
    if |ws| == 0 then map[]
    else
      var n := |ws| - 1;
      WarehouseNames(ws[..n])[ws[n].warehouseId := ws[n].name]
  }

  /** The map knows exactly the listed ids, and an id's name is that of the
      last entry with that id. */
  lemma WarehouseNamesLastWins(ws: seq<WarehouseInfo>)
    ensures forall id :: id in WarehouseNames(ws) <==> exists w | w in ws :: w.warehouseId == id
    ensures forall i | 0 <= i < |ws| && (forall j | i < j < |ws| :: ws[j].warehouseId != ws[i].warehouseId) ::
              WarehouseNames(ws)[ws[i].warehouseId] == ws[i].name
  {
    WarehouseNamesKeys(ws);
    WarehouseNamesLast(ws);
  }

  /** The map knows exactly the listed ids. */
  lemma {:induction false} WarehouseNamesKeys(ws: seq<WarehouseInfo>)
    ensures forall id :: id in WarehouseNames(ws) <==> exists w | w in ws :: w.warehouseId == id
  {
    if |ws| > 0 {
      var n := |ws| - 1;
      WarehouseNamesKeys(ws[..n]);
      assert forall w :: w in ws <==> w in ws[..n] || w == ws[n];
    }
  }

  /** An id's name is that of the last entry with that id. */
  lemma {:induction false} WarehouseNamesLast(ws: seq<WarehouseInfo>)
    ensures forall i | 0 <= i < |ws| && (forall j | i < j < |ws| :: ws[j].warehouseId != ws[i].warehouseId) ::
              ws[i].warehouseId in WarehouseNames(ws) && WarehouseNames(ws)[ws[i].warehouseId] == ws[i].name
  {
    if |ws| > 0 {
      var n := |ws| - 1;
      WarehouseNamesLast(ws[..n]);
      forall i | 0 <= i < |ws| && (forall j | i < j < |ws| :: ws[j].warehouseId != ws[i].warehouseId)
        ensures ws[i].warehouseId in WarehouseNames(ws) && WarehouseNames(ws)[ws[i].warehouseId] == ws[i].name
      {
        if i < n {
          assert ws[..n][i] == ws[i];
          assert forall j | i < j < n :: ws[..n][j] == ws[j];
        }
      }
    }
  }

  /** `wh_map.get(wh_id, f"Warehouse {wh_id}")`. */
  function NameOf(names: map<string, string>, id: string): string {
    if id in names then names[id] else "Warehouse " + id
  }

  /** An id missing from the warehouse list is shown as `Warehouse <id>`; a
      listed id under the name of its last entry. */
  lemma UnknownWarehouseName(ws: seq<WarehouseInfo>, id: string)
    ensures (forall w | w in ws :: w.warehouseId != id) ==> NameOf(WarehouseNames(ws), id) == "Warehouse " + id
    ensures forall i | 0 <= i < |ws| && ws[i].warehouseId == id && (forall j | i < j < |ws| :: ws[j].warehouseId != id) ::
              NameOf(WarehouseNames(ws), id) == ws[i].name
  {
    WarehouseNamesLastWins(ws);
  }

  /** All stock entries of all products, in report order. */
  function AllStocks(items: seq<StockItem>): seq<StockEntry> {
    if |items| == 0 then [] else AllStocks(items[..|items| - 1]) + items[|items| - 1].stocks
  }

  predicate IsFbo(s: StockEntry) { s.kind == "fbo" }

  /** 1 for an FBO entry. */
  function FboOne(s: StockEntry): int { if IsFbo(s) then 1 else 0 }

  /** `present` of an FBO entry. */
  function FboPresent(s: StockEntry): int { if IsFbo(s) then s.present else 0 }

  function EntryName(names: map<string, string>): StockEntry -> string {
    (s: StockEntry) => NameOf(names, s.warehouseId)
  }

  /** What a stock entry adds to `warehouse_totals`: an FBO entry adds 1 to
      `items_count` and `present` to `quantity` of its warehouse's name; any
      other entry adds nothing. */
  function FboEntry(names: map<string, string>): StockEntry -> seq<Entry<string>> {
    (s: StockEntry) => if IsFbo(s) then [Entry(NameOf(names, s.warehouseId), 1, s.present)] else []
  }

  /** The id recorded with a warehouse name: that of the first FBO entry under
      that name (`""` when there is none). */
  function FirstId(ss: seq<StockEntry>, names: map<string, string>, name: string): string {
    if |ss| == 0 then ""
    else if FboNamed(ss[0], names, name) then ss[0].warehouseId
    else FirstId(ss[1..], names, name)
  }

  /** An FBO entry listed under `name`. */
  predicate FboNamed(s: StockEntry, names: map<string, string>, name: string) {
    IsFbo(s) && NameOf(names, s.warehouseId) == name
  }

  /** `i` is the first FBO entry under `name`. */
  ghost predicate FirstNamedAt(ss: seq<StockEntry>, names: map<string, string>, name: string, i: int) {
    && 0 <= i < |ss|
    && FboNamed(ss[i], names, name)
    && forall j | 0 <= j < i :: !FboNamed(ss[j], names, name)
  }

  lemma {:induction false} FirstIdFirst(ss: seq<StockEntry>, names: map<string, string>, name: string)
    requires exists s | s in ss :: FboNamed(s, names, name)
    ensures exists i :: FirstNamedAt(ss, names, name, i) && FirstId(ss, names, name) == ss[i].warehouseId
  {
    if FboNamed(ss[0], names, name) {
      assert FirstNamedAt(ss, names, name, 0);
    } else {
      var s :| s in ss && FboNamed(s, names, name);
      assert s in ss[1..];
      FirstIdFirst(ss[1..], names, name);
      var i :| FirstNamedAt(ss[1..], names, name, i) && FirstId(ss[1..], names, name) == ss[1..][i].warehouseId;
      assert ss[i + 1] == ss[1..][i];
      forall j | 0 <= j < i + 1 ensures !FboNamed(ss[j], names, name) {
        if j > 0 {
          assert ss[j] == ss[1..][j - 1];
        }
      }
      assert FirstNamedAt(ss, names, name, i + 1);
    }
  }

  /** A record of the result: `name`, `warehouse_id`, `quantity`,
      `items_count`. */
  datatype WarehouseStock = WarehouseStock(name: string, warehouseId: string, quantity: int, itemsCount: int)

  function StockQuantity(w: WarehouseStock): int { w.quantity }
  function StockName(w: WarehouseStock): string { w.name }
  function StockItemsCount(w: WarehouseStock): int { w.itemsCount }

  function WithId(ss: seq<StockEntry>, names: map<string, string>): Group<string> -> WarehouseStock {
    (g: Group<string>) => WarehouseStock(g.key, FirstId(ss, names, g.key), g.sum, g.count)
  }

  /** The result of `aggregate_stocks_by_warehouse(stocks, warehouses)`: one
      record per warehouse name, largest quantity first. */
  function StocksByWarehouse(items: seq<StockItem>, ws: seq<WarehouseInfo>): seq<WarehouseStock> {
    var ss, names := AllStocks(items), WarehouseNames(ws);
    Mapped(Ranked(Contribute(ss, FboEntry(names)), SumOf), WithId(ss, names))
  }

  method AggregateStocksByWarehouse(items: seq<StockItem>, ws: seq<WarehouseInfo>) returns (r: seq<WarehouseStock>)
    ensures r == StocksByWarehouse(items, ws)
  {
    var ss, names := AllStocks(items), WarehouseNames(ws);
    var buckets := Accumulate(Contribute(ss, FboEntry(names)));
    var sorted := SortDesc(buckets, SumOf);
    var withId := WithId(ss, names);
    r := [];
    var i := 0;
    while i < |sorted|
      invariant 0 <= i <= |sorted|
      invariant r == Mapped(sorted[..i], withId)
    {
      var g := sorted[i];
      MappedSnoc(sorted[..i], g, withId);
      assert sorted[..i + 1] == sorted[..i] + [g];
      r := r + [WarehouseStock(g.key, FirstId(ss, names, g.key), g.sum, g.count)];
      i := i + 1;
    }
    assert sorted[..i] == sorted;
  }

  lemma OneFboEntry(ss: seq<StockEntry>, names: map<string, string>)
    ensures forall s | s in ss :: OneEntry(FboEntry(names), EntryName(names), FboOne, FboPresent, s)
  {
  }

  /** Only FBO entries count: the names shown are exactly those of the FBO
      entries, each once, largest quantity first. */
  lemma StocksByWarehouseNames(items: seq<StockItem>, ws: seq<WarehouseInfo>)
    ensures Descending(StocksByWarehouse(items, ws), StockQuantity)
    ensures Unique(StocksByWarehouse(items, ws), StockName)
    ensures (set w | w in StocksByWarehouse(items, ws) :: StockName(w))
         == (set s | s in AllStocks(items) && IsFbo(s) :: EntryName(WarehouseNames(ws))(s))
  {
    var ss, names := AllStocks(items), WarehouseNames(ws);
    var gs := Ranked(Contribute(ss, FboEntry(names)), SumOf);
    OneFboEntry(ss, names);
    RankedRows(ss, FboEntry(names), EntryName(names), FboOne, FboPresent, SumOf);
    MappedOrder(gs, WithId(ss, names), SumOf, StockQuantity, KeyOf, StockName);
    GroupNames(gs, ss, names);
  }

  /** The names of the records are the names of the groups, which are the
      names of the FBO entries. */
  lemma GroupNames(gs: seq<Group<string>>, ss: seq<StockEntry>, names: map<string, string>)
    requires (set g | g in gs :: g.key) == set s | s in ss && Counted(FboEntry(names), s) :: EntryName(names)(s)
    ensures (set w | w in Mapped(gs, WithId(ss, names)) :: StockName(w))
         == (set s | s in ss && IsFbo(s) :: EntryName(names)(s))
  {
    GroupNamesWithin(gs, ss, names);
    GroupNamesCover(gs, ss, names);
  }

  /** Every record's name is the name of an FBO entry. */
  lemma GroupNamesWithin(gs: seq<Group<string>>, ss: seq<StockEntry>, names: map<string, string>)
    requires (set g | g in gs :: g.key) == set s | s in ss && Counted(FboEntry(names), s) :: EntryName(names)(s)
    ensures (set w | w in Mapped(gs, WithId(ss, names)) :: StockName(w))
         <= (set s | s in ss && IsFbo(s) :: EntryName(names)(s))
  {
    var keys := set g | g in gs :: g.key;
    var r := Mapped(gs, WithId(ss, names));
    var a, b := set w | w in r :: StockName(w), set s | s in ss && IsFbo(s) :: EntryName(names)(s);
    forall n | n in a ensures n in b {
      var w :| w in r && StockName(w) == n;
      var i :| 0 <= i < |r| && r[i] == w;
      assert gs[i].key == n;
      assert n in keys;
      var e :| e in ss && Counted(FboEntry(names), e) && EntryName(names)(e) == n;
    }
  }

  /** Every FBO entry's name is the name of a record. */
  lemma GroupNamesCover(gs: seq<Group<string>>, ss: seq<StockEntry>, names: map<string, string>)
    requires (set g | g in gs :: g.key) == set s | s in ss && Counted(FboEntry(names), s) :: EntryName(names)(s)
    ensures (set s | s in ss && IsFbo(s) :: EntryName(names)(s))
         <= (set w | w in Mapped(gs, WithId(ss, names)) :: StockName(w))
  {
    var counted := set s | s in ss && Counted(FboEntry(names), s) :: EntryName(names)(s);
    var r := Mapped(gs, WithId(ss, names));
    var a, b := set w | w in r :: StockName(w), set s | s in ss && IsFbo(s) :: EntryName(names)(s);
    forall n | n in b ensures n in a {
      var e :| e in ss && IsFbo(e) && EntryName(names)(e) == n;
      assert Counted(FboEntry(names), e);
      assert n in counted;
      var g :| g in gs && g.key == n;
      var i :| 0 <= i < |gs| && gs[i] == g;
      assert r[i] in r;
    }
  }

  /** A warehouse's `quantity` is the sum of `present` and its `items_count`
      the number of its FBO entries; its `warehouse_id` is the id of the first
      FBO entry under its name (ids listed under one name share one record). */
  lemma StocksByWarehouseFigures(items: seq<StockItem>, ws: seq<WarehouseInfo>)
    ensures forall w | w in StocksByWarehouse(items, ws) ::
              && w.quantity == SumWhere(AllStocks(items), EntryName(WarehouseNames(ws)), w.name, FboPresent)
              && w.itemsCount == SumWhere(AllStocks(items), EntryName(WarehouseNames(ws)), w.name, FboOne)
              && w.warehouseId == FirstId(AllStocks(items), WarehouseNames(ws), w.name)
  {
    var ss, names := AllStocks(items), WarehouseNames(ws);
    var gs := Ranked(Contribute(ss, FboEntry(names)), SumOf);
    OneFboEntry(ss, names);
    RankedRows(ss, FboEntry(names), EntryName(names), FboOne, FboPresent, SumOf);
    MappedMembers(gs, WithId(ss, names));
    forall w | w in StocksByWarehouse(items, ws)
      ensures && w.quantity == SumWhere(ss, EntryName(names), w.name, FboPresent)
              && w.itemsCount == SumWhere(ss, EntryName(names), w.name, FboOne)
              && w.warehouseId == FirstId(ss, names, w.name)
    {
      var i :| 0 <= i < |gs| && w == WithId(ss, names)(gs[i]);
      assert gs[i] in gs;
    }
  }

  /** All FBO stock is accounted for, and every FBO entry is counted once. */
  lemma StocksByWarehouseTotals(items: seq<StockItem>, ws: seq<WarehouseInfo>)
    ensures SumBy(StocksByWarehouse(items, ws), StockQuantity) == SumBy(AllStocks(items), FboPresent)
    ensures SumBy(StocksByWarehouse(items, ws), StockItemsCount) == SumBy(AllStocks(items), FboOne)
  {
    var ss, names := AllStocks(items), WarehouseNames(ws);
    var gs := Ranked(Contribute(ss, FboEntry(names)), SumOf);
    OneFboEntry(ss, names);
    RankedRows(ss, FboEntry(names), EntryName(names), FboOne, FboPresent, SumOf);
    MappedSum(gs, WithId(ss, names), SumOf, StockQuantity);
    MappedSum(gs, WithId(ss, names), CountOf, StockItemsCount);
  }

  // ---------------------------------------------------------------------------
  // aggregate_orders_by_warehouse_and_region

  function LineValue(l: FinancialLine): int { l.price * l.quantity }

  /** `total_price`: the sum of `price * quantity` over the financial lines. */
  function PostingValue(o: Posting): int { SumBy(o.financialProducts, LineValue) }

  /** The loop that computes `total_price`. */
  method OrderValue(o: Posting) returns (total: int)
    ensures total == PostingValue(o)
  {
    total := 0;
    var i := 0;
    while i < |o.financialProducts|
      invariant 0 <= i <= |o.financialProducts|
      invariant total == SumBy(o.financialProducts[..i], LineValue)
    {
      var prod := o.financialProducts[i];
      SumByAppend(o.financialProducts[..i], [prod], LineValue);
      assert o.financialProducts[..i + 1] == o.financialProducts[..i] + [prod];
      total := total + prod.price * prod.quantity;
      i := i + 1;
    }
    assert o.financialProducts[..i] == o.financialProducts;
  }

  /** The region of a posting: `cluster_to`, else `city`, else `'Unknown'`. */
  function RegionOf(o: Posting): string {
    if o.clusterTo != "" then o.clusterTo else if o.city != "" then o.city else "Unknown"
  }

  /** The region is never blank: the delivery cluster when there is one, the
      city when there is no cluster, `Unknown` only when both are blank. */
  lemma RegionFallback(o: Posting)
    ensures RegionOf(o) != ""
    ensures o.clusterTo != "" ==> RegionOf(o) == o.clusterTo
    ensures o.clusterTo == "" && o.city != "" ==> RegionOf(o) == o.city
    ensures o.clusterTo == "" && o.city == "" ==> RegionOf(o) == "Unknown"
  {
  }

  function PostingWarehouse(o: Posting): string { o.warehouseName }

  /** What a posting adds to `by_warehouse`: 1 and its value. */
  function WarehousePosting(o: Posting): seq<Entry<string>> {
    [Entry(o.warehouseName, 1, PostingValue(o))]
  }

  /** What a posting adds to `by_region`. */
  function RegionPosting(o: Posting): seq<Entry<string>> {
    [Entry(RegionOf(o), 1, PostingValue(o))]
  }

  /** The first result of `aggregate_orders_by_warehouse_and_region`. */
  function OrdersByWarehouse(ps: seq<Posting>): seq<Group<string>> {
    Ranked(Contribute(ps, WarehousePosting), SumOf)
  }

  /** The second result. */
  function OrdersByRegion(ps: seq<Posting>): seq<Group<string>> {
    Ranked(Contribute(ps, RegionPosting), SumOf)
  }

  method AggregateOrdersByWarehouseAndRegion(ps: seq<Posting>)
    returns (byWarehouse: seq<Group<string>>, byRegion: seq<Group<string>>)
    ensures byWarehouse == OrdersByWarehouse(ps)
    ensures byRegion == OrdersByRegion(ps)
  {
    var wes: seq<Entry<string>> := [];
    var res: seq<Entry<string>> := [];
    var i := 0;
    while i < |ps|
      invariant 0 <= i <= |ps|
      invariant wes == Contribute(ps[..i], WarehousePosting)
      invariant res == Contribute(ps[..i], RegionPosting)
    {
      var o := ps[i];
      var totalPrice := OrderValue(o);
      var regionKey := if o.clusterTo != "" then o.clusterTo else o.city;
      if regionKey == "" {
        regionKey := "Unknown";
      }
      wes := wes + [Entry(o.warehouseName, 1, totalPrice)];
      res := res + [Entry(regionKey, 1, totalPrice)];
      assert ps[..i + 1][..i] == ps[..i];
      i := i + 1;
    }
    assert ps[..i] == ps;
    var ws := Accumulate(wes);
    var rs := Accumulate(res);
    byWarehouse := SortDesc(ws, SumOf);
    byRegion := SortDesc(rs, SumOf);
  }

  /** Each posting's warehouse appears once, and no other, with the number of
      its postings and the sum of their values, largest revenue first. */
  lemma OrdersByWarehouseFigures(ps: seq<Posting>)
    ensures Descending(OrdersByWarehouse(ps), SumOf)
    ensures Unique(OrdersByWarehouse(ps), KeyOf)
    ensures (set g | g in OrdersByWarehouse(ps) :: g.key) == (set o | o in ps :: o.warehouseName)
    ensures forall g | g in OrdersByWarehouse(ps) ::
              && g.count == SumWhere(ps, PostingWarehouse, g.key, One)
              && g.sum == SumWhere(ps, PostingWarehouse, g.key, PostingValue)
  {
    RankedRows(ps, WarehousePosting, PostingWarehouse, One, PostingValue, SumOf);
    assert (set o | o in ps && Counted(WarehousePosting, o) :: PostingWarehouse(o)) == (set o | o in ps :: o.warehouseName);
  }

  /** The same for regions, a posting's region being `RegionOf`. */
  lemma OrdersByRegionFigures(ps: seq<Posting>)
    ensures Descending(OrdersByRegion(ps), SumOf)
    ensures Unique(OrdersByRegion(ps), KeyOf)
    ensures (set g | g in OrdersByRegion(ps) :: g.key) == (set o | o in ps :: RegionOf(o))
    ensures forall g | g in OrdersByRegion(ps) ::
              && g.count == SumWhere(ps, RegionOf, g.key, One)
              && g.sum == SumWhere(ps, RegionOf, g.key, PostingValue)
  {
    RankedRows(ps, RegionPosting, RegionOf, One, PostingValue, SumOf);
    assert (set o | o in ps && Counted(RegionPosting, o) :: RegionOf(o)) == (set o | o in ps :: RegionOf(o));
  }

  /** Each posting adds exactly 1 to one warehouse and 1 to one region, so both
      sets of counts add up to the number of postings, and both revenues to
      the total value. */
  lemma OrdersByWarehouseAndRegionTotals(ps: seq<Posting>)
    ensures SumBy(OrdersByWarehouse(ps), CountOf) == |ps| == SumBy(OrdersByRegion(ps), CountOf)
    ensures SumBy(OrdersByWarehouse(ps), SumOf) == SumBy(ps, PostingValue) == SumBy(OrdersByRegion(ps), SumOf)
  {
    RankedRows(ps, WarehousePosting, PostingWarehouse, One, PostingValue, SumOf);
    RankedRows(ps, RegionPosting, RegionOf, One, PostingValue, SumOf);
    SumByOnes(ps, One);
  }

  // ---------------------------------------------------------------------------
  // aggregate_sales_by_product

  /** A product line together with the warehouse of its posting. */
  datatype SaleLine = SaleLine(article: string, warehouse: string, price: int, quantity: int)

  function SaleLinesOf(o: Posting): seq<SaleLine> {
    Mapped(o.products, (l: ProductLine) => SaleLine(l.offerId, o.warehouseName, l.price, l.quantity))
  }

  /** The product lines of all postings, in the order the loops visit them. */
  function SaleLines(ps: seq<Posting>): seq<SaleLine> {
    if |ps| == 0 then [] else SaleLines(ps[..|ps| - 1]) + SaleLinesOf(ps[|ps| - 1])
  }

  function LineArticle(l: SaleLine): string { l.article }
  function LineKey(l: SaleLine): (string, string) { (l.article, l.warehouse) }
  function LineQuantity(l: SaleLine): int { l.quantity }
  function LineRevenue(l: SaleLine): int { l.price * l.quantity }

  /** What a product line adds: its quantity to `count`, `price * qty` to
      `revenue`, of its product and of the product's warehouse. */
  function SaleEntry(l: SaleLine): seq<Entry<(string, string)>> {
    [Entry(LineKey(l), l.quantity, LineRevenue(l))]
  }

  /** The result of `aggregate_sales_by_product(orders)`. */
  function SalesByProduct(ps: seq<Posting>): seq<Nested<string, string>> {
    RankedNest(Contribute(SaleLines(ps), SaleEntry), SumOf)
  }

  /** Walks the lines, sorts each product's warehouses by revenue, then sorts
      the products by revenue. */
  method AggregateSalesByProduct(ps: seq<Posting>) returns (r: seq<Nested<string, string>>)
    ensures r == SalesByProduct(ps)
  {
    var es := Contribute(SaleLines(ps), SaleEntry);
    var byProduct := AccumulateNested(es);
    var result := SortEachParts(byProduct, SumOf);
    r := SortDesc(result, NestedSum);
    RankPartsSort(Nest(es), SumOf);
  }

  lemma OneSaleEntry(ls: seq<SaleLine>)
    ensures forall l | l in ls :: OneEntry(SaleEntry, LineKey, LineQuantity, LineRevenue, l)
                                  && LineArticle(l) == LineKey(l).0
  {
  }

  /** Each article sold appears once, and no other, largest revenue first; its
      `count` is the sum of its lines' quantities and equals the sum of its
      warehouse breakdown's counts; its `revenue` likewise; the breakdown is
      sorted by revenue and holds the sums over the lines of each warehouse. */
  lemma SalesByProductFigures(ps: seq<Posting>)
    ensures Descending(SalesByProduct(ps), NestedSum)
    ensures Unique(SalesByProduct(ps), NestedKey)
    ensures forall p | p in SalesByProduct(ps) ::
              && p.count == SumWhere(SaleLines(ps), LineArticle, p.key, LineQuantity)
              && p.sum == SumWhere(SaleLines(ps), LineArticle, p.key, LineRevenue)
              && AddsUp(p)
              && Descending(p.parts, SumOf)
              && Unique(p.parts, KeyOf)
              && (forall g | g in p.parts ::
                    && g.count == SumWhere(SaleLines(ps), LineKey, (p.key, g.key), LineQuantity)
                    && g.sum == SumWhere(SaleLines(ps), LineKey, (p.key, g.key), LineRevenue))
  {
    var ls := SaleLines(ps);
    var es, r := Contribute(ls, SaleEntry), SalesByProduct(ps);
    RankedNestFacts(es, SumOf);
    OneSaleEntry(ls);
    forall p | p in r
      ensures && p.count == SumWhere(ls, LineArticle, p.key, LineQuantity)
              && p.sum == SumWhere(ls, LineArticle, p.key, LineRevenue)
              && (forall g | g in p.parts ::
                    && g.count == SumWhere(ls, LineKey, (p.key, g.key), LineQuantity)
                    && g.sum == SumWhere(ls, LineKey, (p.key, g.key), LineRevenue))
    {
      NestedRows(ls, SaleEntry, LineKey, LineArticle, LineQuantity, LineRevenue, p);
    }
  }

  /** The articles listed are those of the lines sold. */
  lemma SalesByProductKeys(ps: seq<Posting>)
    ensures (set p | p in SalesByProduct(ps) :: p.key) == (set l | l in SaleLines(ps) :: l.article)
  {
    var ls := SaleLines(ps);
    var es, r := Contribute(ls, SaleEntry), SalesByProduct(ps);
    RankedNestFacts(es, SumOf);
    OneSaleEntry(ls);
    NestedKeys(ls, SaleEntry, LineKey, LineArticle, LineQuantity, LineRevenue, r);
    EveryLineCounted(ls);
  }

  /** Every product line adds an entry. */
  lemma EveryLineCounted(ls: seq<SaleLine>)
    ensures (set l | l in ls && Counted(SaleEntry, l) :: LineArticle(l)) == (set l | l in ls :: l.article)
  {
    var a, b := set l | l in ls && Counted(SaleEntry, l) :: LineArticle(l),
                set l | l in ls :: l.article;
    forall k | k in b ensures k in a {
      var l :| l in ls && l.article == k;
      assert Counted(SaleEntry, l);
    }
  }

  /** Every unit sold and all of the revenue are accounted for. */
  lemma SalesByProductTotals(ps: seq<Posting>)
    ensures SumBy(SalesByProduct(ps), NestedCount) == SumBy(SaleLines(ps), LineQuantity)
    ensures SumBy(SalesByProduct(ps), NestedSum) == SumBy(SaleLines(ps), LineRevenue)
  {
    var ls := SaleLines(ps);
    RankedNestFacts(Contribute(ls, SaleEntry), SumOf);
    OneSaleEntry(ls);
    ContributeTotals(ls, SaleEntry, LineKey, LineQuantity, LineRevenue);
  }

  // ---------------------------------------------------------------------------
  // aggregate_stocks_by_product

  /** 1 for an FBO entry with stock. */
  function FboWithStock(s: StockEntry): int { if IsFbo(s) && s.present > 0 then 1 else 0 }

  /** `fbo_present` of a product. */
  function ItemPresent(item: StockItem): int { SumBy(item.stocks, FboPresent) }

  /** `warehouses_count` of a product: its FBO entries with stock. */
  function ItemWarehouses(item: StockItem): int { SumBy(item.stocks, FboWithStock) }

  /** The inner loop over a product's stock entries. */
  method ItemFbo(item: StockItem) returns (fboPresent: int, warehousesCount: int)
    ensures fboPresent == ItemPresent(item)
    ensures warehousesCount == ItemWarehouses(item)
  {
    fboPresent, warehousesCount := 0, 0;
    var i := 0;
    while i < |item.stocks|
      invariant 0 <= i <= |item.stocks|
      invariant fboPresent == SumBy(item.stocks[..i], FboPresent)
      invariant warehousesCount == SumBy(item.stocks[..i], FboWithStock)
    {
      var stock := item.stocks[i];
      SumByAppend(item.stocks[..i], [stock], FboPresent);
      SumByAppend(item.stocks[..i], [stock], FboWithStock);
      assert item.stocks[..i + 1] == item.stocks[..i] + [stock];
      if stock.kind == "fbo" {
        fboPresent := fboPresent + stock.present;
        if stock.present > 0 {
          warehousesCount := warehousesCount + 1;
        }
      }
      i := i + 1;
    }
    assert item.stocks[..i] == item.stocks;
  }

  function ItemArticle(item: StockItem): string { item.offerId }

  /** A product whose FBO stock adds up to more than 0. */
  predicate InStock(item: StockItem) { ItemPresent(item) > 0 }

  /** A product with FBO stock adds `fbo_present` and `warehouses_count`;
      one without adds nothing. */
  function ShownPresent(item: StockItem): int { if ItemPresent(item) > 0 then ItemPresent(item) else 0 }
  function ShownWarehouses(item: StockItem): int { if ItemPresent(item) > 0 then ItemWarehouses(item) else 0 }

  /** What a product adds to `by_product`: `warehouses_count` goes to the
      group's `count`, `fbo_present` to its `sum`. */
  function ProductStock(item: StockItem): seq<Entry<string>> {
    if ItemPresent(item) > 0 then [Entry(item.offerId, ItemWarehouses(item), ItemPresent(item))] else []
  }

  /** The result of `aggregate_stocks_by_product(stocks)`: `count` is
      `warehouses_count`, `sum` is `quantity`, largest quantity first. */
  function StocksByProduct(items: seq<StockItem>): seq<Group<string>> {
    Ranked(Contribute(items, ProductStock), SumOf)
  }

  method AggregateStocksByProduct(items: seq<StockItem>) returns (r: seq<Group<string>>)
    ensures r == StocksByProduct(items)
  {
    var es: seq<Entry<string>> := [];
    var i := 0;
    while i < |items|
      invariant 0 <= i <= |items|
      invariant es == Contribute(items[..i], ProductStock)
    {
      var item := items[i];
      var fboPresent, warehousesCount := ItemFbo(item);
      if fboPresent > 0 {
        es := es + [Entry(item.offerId, warehousesCount, fboPresent)];
      }
      assert items[..i + 1][..i] == items[..i];
      i := i + 1;
    }
    assert items[..i] == items;
    var byProduct := Accumulate(es);
    r := SortDesc(byProduct, SumOf);
  }

  lemma OneProductStock(items: seq<StockItem>)
    ensures forall it | it in items :: OneEntry(ProductStock, ItemArticle, ShownWarehouses, ShownPresent, it)
  {
  }

  /** Only products whose FBO stock adds up to more than 0 appear, each once,
      largest quantity first. */
  lemma StocksByProductKeys(items: seq<StockItem>)
    ensures Descending(StocksByProduct(items), SumOf)
    ensures Unique(StocksByProduct(items), KeyOf)
    ensures (set g | g in StocksByProduct(items) :: g.key) == (set it | it in items && InStock(it) :: ItemArticle(it))
  {
    OneProductStock(items);
    RankedRows(items, ProductStock, ItemArticle, ShownWarehouses, ShownPresent, SumOf);
    CountedKeys(items, ProductStock, InStock, ItemArticle);
  }

  /** A product's quantity, positive, and its warehouse count are summed over
      the stock report's entries for it. */
  lemma StocksByProductFigures(items: seq<StockItem>)
    ensures forall g | g in StocksByProduct(items) ::
              && g.sum == SumWhere(items, ItemArticle, g.key, ShownPresent)
              && g.count == SumWhere(items, ItemArticle, g.key, ShownWarehouses)
              && g.sum > 0
  {
    var r := StocksByProduct(items);
    OneProductStock(items);
    RankedRows(items, ProductStock, ItemArticle, ShownWarehouses, ShownPresent, SumOf);
    StocksByProductKeys(items);
    var keys, stocked := set g | g in r :: g.key, set it | it in items && InStock(it) :: ItemArticle(it);
    forall g | g in r ensures g.sum > 0 {
      assert g.key in keys;
      var it :| it in items && InStock(it) && ItemArticle(it) == g.key;
      SumWherePositive(items, ItemArticle, g.key, ShownPresent, it);
    }
  }

  // ---------------------------------------------------------------------------
  // aggregate_stocks_by_product_from_fbo

  function FboArticle(r: FboRow): string { r.itemCode }
  function FboArticleWarehouse(r: FboRow): (string, string) { (r.itemCode, r.warehouseName) }
  function FboWarehouseArticle(r: FboRow): (string, string) { (r.warehouseName, r.itemCode) }
  function FboWarehouse(r: FboRow): string { r.warehouseName }

  /** A row that is not skipped. */
  predicate HasFree(r: FboRow) { r.freeToSell > 0 }

  /** The free stock of a row that is not skipped (rows with `qty <= 0` are). */
  function Free(r: FboRow): int { if r.freeToSell > 0 then r.freeToSell else 0 }
  function FreeOne(r: FboRow): int { if r.freeToSell > 0 then 1 else 0 }

  /** What a row adds to `by_product[article]`: its quantity, and its
      warehouse to the product's set of warehouses. */
  function ArticleFbo(r: FboRow): seq<Entry<(string, string)>> {
    if r.freeToSell <= 0 then [] else [Entry(FboArticleWarehouse(r), 1, r.freeToSell)]
  }

  /** A result record: `count` is `warehouses_count`, the number of distinct
      warehouses; `sum` is `quantity`. */
  function Summary(n: Nested<string, string>): Group<string> {
    Group(n.key, |n.parts|, n.sum)
  }

  /** The result of `aggregate_stocks_by_product_from_fbo(fbo_analytics)`. */
  function StocksByProductFromFbo(rows: seq<FboRow>): seq<Group<string>> {
    SortDesc(Mapped(Nest(Contribute(rows, ArticleFbo)), Summary), SumOf)
  }

  method AggregateStocksByProductFromFbo(rows: seq<FboRow>) returns (r: seq<Group<string>>)
    ensures r == StocksByProductFromFbo(rows)
  {
    var byProduct := AccumulateNested(Contribute(rows, ArticleFbo));
    var result: seq<Group<string>> := [];
    var i := 0;
    while i < |byProduct|
      invariant 0 <= i <= |byProduct|
      invariant result == Mapped(byProduct[..i], Summary)
    {
      var data := byProduct[i];
      var g := Group(data.key, |data.parts|, data.sum);
      MappedStep(byProduct, i, Summary, g);
      result := result + [g];
      i := i + 1;
    }
    assert byProduct[..i] == byProduct;
    r := SortDesc(result, SumOf);
  }

  lemma OneArticleFbo(rows: seq<FboRow>)
    ensures forall r | r in rows :: OneEntry(ArticleFbo, FboArticleWarehouse, FreeOne, Free, r)
                                    && FboArticle(r) == FboArticleWarehouse(r).0
  {
  }

  /** The warehouses holding free stock of `article`. */
  function WarehousesOf(rows: seq<FboRow>, article: string): set<string> {
    set r | r in rows && r.freeToSell > 0 && r.itemCode == article :: r.warehouseName
  }

  /** The inner keys of an article are the warehouses with free stock of it. */
  lemma ArticleWarehouses(rows: seq<FboRow>, article: string)
    ensures KeySet(Inner(Contribute(rows, ArticleFbo), article)) == WarehousesOf(rows, article)
  {
    var es := Contribute(rows, ArticleFbo);
    OneArticleFbo(rows);
    ContributeKeySet(rows, ArticleFbo, FboArticleWarehouse, FreeOne, Free);
    InnerKeySet(es, article);
    forall w | w in WarehousesOf(rows, article) ensures w in KeySet(Inner(es, article)) {
      var r :| r in rows && r.freeToSell > 0 && r.itemCode == article && r.warehouseName == w;
      assert Counted(ArticleFbo, r);
      assert (article, w) in KeySet(es);
    }
    assert WarehousesOf(rows, article) <= KeySet(Inner(es, article));
  }

  /** The figures of one article's outer bucket. */
  lemma ArticleSummary(rows: seq<FboRow>, n: Nested<string, string>)
    requires n in Nest(Contribute(rows, ArticleFbo))
    ensures Summary(n).sum == SumWhere(rows, FboArticle, n.key, Free)
    ensures Summary(n).sum > 0
    ensures Summary(n).count == |WarehousesOf(rows, n.key)|
  {
    var es := Contribute(rows, ArticleFbo);
    NestFacts(es);
    NestPartsCount(es);
    OneArticleFbo(rows);
    NestedRows(rows, ArticleFbo, FboArticleWarehouse, FboArticle, FreeOne, Free, n);
    ArticleWarehouses(rows, n.key);
    ContributeKeySet(rows, ArticleFbo, FboArticleWarehouse, FreeOne, Free);
    assert BucketOf(Group(n.key, n.count, n.sum), Outer(es));
    OuterKeySet(es);
    var k2 :| (n.key, k2) in KeySet(es);
    var r :| r in rows && Counted(ArticleFbo, r) && FboArticleWarehouse(r) == (n.key, k2);
    SumWherePositive(rows, FboArticle, n.key, Free, r);
  }

  /** Rows with `qty <= 0` are skipped: a product's quantity is the positive
      sum of its rows' free stock, and its `warehouses_count` the number of
      distinct warehouses holding it; largest quantity first. */
  lemma StocksByProductFromFboFigures(rows: seq<FboRow>)
    ensures Descending(StocksByProductFromFbo(rows), SumOf)
    ensures forall g | g in StocksByProductFromFbo(rows) ::
              && g.sum == SumWhere(rows, FboArticle, g.key, Free)
              && g.sum > 0
              && g.count == |WarehousesOf(rows, g.key)|
  {
    var ns := Nest(Contribute(rows, ArticleFbo));
    var ms := Mapped(ns, Summary);
    MappedMembers(ns, Summary);
    forall g | g in StocksByProductFromFbo(rows)
      ensures && g.sum == SumWhere(rows, FboArticle, g.key, Free)
              && g.sum > 0
              && g.count == |WarehousesOf(rows, g.key)|
    {
      assert g in multiset(ms);
      var i :| 0 <= i < |ns| && g == Summary(ns[i]);
      ArticleSummary(rows, ns[i]);
    }
  }

  /** The products shown are exactly those with a row of free stock, each
      once. */
  lemma StocksByProductFromFboKeys(rows: seq<FboRow>)
    ensures Unique(StocksByProductFromFbo(rows), KeyOf)
    ensures (set g | g in StocksByProductFromFbo(rows) :: KeyOf(g)) == (set r | r in rows && HasFree(r) :: FboArticle(r))
  {
    var ns := Nest(Contribute(rows, ArticleFbo));
    var ms := Mapped(ns, Summary);
    NestFacts(Contribute(rows, ArticleFbo));
    MappedOrder(ns, Summary, NestedSum, SumOf, NestedKey, KeyOf);
    UniquePermutation(ms, StocksByProductFromFbo(rows), KeyOf);
    NestKeys(rows);
    SummaryKeys(rows, ns);
  }

  lemma NestKeys(rows: seq<FboRow>)
    ensures (set n | n in Nest(Contribute(rows, ArticleFbo)) :: n.key)
         == set r | r in rows && Counted(ArticleFbo, r) :: FboArticle(r)
  {
    NestFacts(Contribute(rows, ArticleFbo));
    OneArticleFbo(rows);
    NestedKeys(rows, ArticleFbo, FboArticleWarehouse, FboArticle, FreeOne, Free, Nest(Contribute(rows, ArticleFbo)));
  }

  /** The keys of the summaries, in any order, are the articles of the rows
      with free stock. */
  lemma SummaryKeys(rows: seq<FboRow>, ns: seq<Nested<string, string>>)
    requires (set n | n in ns :: n.key) == set r | r in rows && Counted(ArticleFbo, r) :: FboArticle(r)
    ensures (set g | g in SortDesc(Mapped(ns, Summary), SumOf) :: KeyOf(g)) == (set r | r in rows && HasFree(r) :: FboArticle(r))
  {
    SummaryKeysWithin(rows, ns);
    SummaryKeysCover(rows, ns);
  }

  /** Every summary's key is the article of a row with free stock. */
  lemma SummaryKeysWithin(rows: seq<FboRow>, ns: seq<Nested<string, string>>)
    requires (set n | n in ns :: n.key) == set r | r in rows && Counted(ArticleFbo, r) :: FboArticle(r)
    ensures (set g | g in SortDesc(Mapped(ns, Summary), SumOf) :: KeyOf(g)) <= (set r | r in rows && HasFree(r) :: FboArticle(r))
  {
    var r := SortDesc(Mapped(ns, Summary), SumOf);
    var b := set r | r in rows && HasFree(r) :: FboArticle(r);
    forall g | g in r ensures KeyOf(g) in b {
      SummaryKeyWithin(rows, ns, g);
    }
  }

  lemma SummaryKeyWithin(rows: seq<FboRow>, ns: seq<Nested<string, string>>, g: Group<string>)
    requires (set n | n in ns :: n.key) == set r | r in rows && Counted(ArticleFbo, r) :: FboArticle(r)
    requires g in SortDesc(Mapped(ns, Summary), SumOf)
    ensures exists row | row in rows && HasFree(row) :: FboArticle(row) == KeyOf(g)
  {
    var ms := Mapped(ns, Summary);
    PermutationMembers(SortDesc(ms, SumOf), ms);
    MappedMembers(ns, Summary);
    var i :| 0 <= i < |ns| && g == Summary(ns[i]);
    var keys, counted := set n | n in ns :: n.key, set r | r in rows && Counted(ArticleFbo, r) :: FboArticle(r);
    assert ns[i] in ns && KeyOf(g) == ns[i].key;
    assert KeyOf(g) in keys;
    assert KeyOf(g) in counted;
    var row :| row in rows && Counted(ArticleFbo, row) && FboArticle(row) == KeyOf(g);
  }

  /** Every article with free stock has a summary. */
  lemma SummaryKeysCover(rows: seq<FboRow>, ns: seq<Nested<string, string>>)
    requires (set n | n in ns :: n.key) == set r | r in rows && Counted(ArticleFbo, r) :: FboArticle(r)
    ensures (set r | r in rows && HasFree(r) :: FboArticle(r)) <= (set g | g in SortDesc(Mapped(ns, Summary), SumOf) :: KeyOf(g))
  {
    var ms := Mapped(ns, Summary);
    var r := SortDesc(ms, SumOf);
    var counted := set r | r in rows && Counted(ArticleFbo, r) :: FboArticle(r);
    var a, b := set g | g in r :: KeyOf(g), set r | r in rows && HasFree(r) :: FboArticle(r);
    forall k | k in b ensures k in a {
      var row :| row in rows && HasFree(row) && FboArticle(row) == k;
      assert Counted(ArticleFbo, row);
      assert k in counted;
      var n :| n in ns && n.key == k;
      var i :| 0 <= i < |ns| && ns[i] == n;
      assert ms[i] in multiset(r);
      assert ms[i] in r;
    }
  }

  // ---------------------------------------------------------------------------
  // aggregate_stocks_warehouse_products

  /** What a row adds to `products[article]` and `total` of its warehouse. */
  function WarehouseArticleFbo(r: FboRow): seq<Entry<(string, string)>> {
    if r.freeToSell <= 0 then [] else [Entry(FboWarehouseArticle(r), 1, r.freeToSell)]
  }

  /** The articles added to `all_articles`. */
  function FreeArticles(rows: seq<FboRow>): set<string> {
    set r | r in rows && r.freeToSell > 0 :: r.itemCode
  }

  /** The first result of `aggregate_stocks_warehouse_products`: every
      warehouse with free stock, largest total first, with its products in the
      order first met. */
  function StocksWarehouseProducts(rows: seq<FboRow>): seq<Nested<string, string>> {
    SortedNest(Contribute(rows, WarehouseArticleFbo))
  }

  method AggregateStocksWarehouseProducts(rows: seq<FboRow>)
    returns (r: seq<Nested<string, string>>, allArticles: seq<string>)
    ensures r == StocksWarehouseProducts(rows)
    ensures Ascending(allArticles)
    ensures forall a :: a in allArticles <==> a in FreeArticles(rows)
    ensures |allArticles| == |FreeArticles(rows)|
  {
    var warehouseData := AccumulateNested(Contribute(rows, WarehouseArticleFbo));
    r := SortDesc(warehouseData, NestedSum);
    allArticles := SortStrings(FreeArticles(rows));
  }

  lemma OneWarehouseArticleFbo(rows: seq<FboRow>)
    ensures forall r | r in rows :: OneEntry(WarehouseArticleFbo, FboWarehouseArticle, FreeOne, Free, r)
                                    && FboWarehouse(r) == FboWarehouseArticle(r).0
  {
  }

  /** The warehouses shown are exactly those with free stock, each once,
      largest total first. */
  lemma StocksWarehouseProductsKeys(rows: seq<FboRow>)
    ensures Descending(StocksWarehouseProducts(rows), NestedSum)
    ensures Unique(StocksWarehouseProducts(rows), NestedKey)
    ensures (set w | w in StocksWarehouseProducts(rows) :: w.key) == (set r | r in rows && r.freeToSell > 0 :: r.warehouseName)
  {
    var ws := StocksWarehouseProducts(rows);
    SortedNestFacts(Contribute(rows, WarehouseArticleFbo));
    OneWarehouseArticleFbo(rows);
    NestedKeys(rows, WarehouseArticleFbo, FboWarehouseArticle, FboWarehouse, FreeOne, Free, ws);
    assert (set r | r in rows && Counted(WarehouseArticleFbo, r) :: FboWarehouse(r))
        == (set r | r in rows && r.freeToSell > 0 :: r.warehouseName);
  }

  /** A warehouse's `total` equals the sum of its `products` and the sum of its
      rows' free stock; each product appears once, with the free stock of that
      article there, and its article is among `all_articles`. */
  lemma StocksWarehouseProductsFigures(rows: seq<FboRow>)
    ensures forall w | w in StocksWarehouseProducts(rows) ::
              && w.sum == SumWhere(rows, FboWarehouse, w.key, Free)
              && SumBy(w.parts, SumOf) == w.sum
              && Unique(w.parts, KeyOf)
              && (forall g | g in w.parts :: g.sum == SumWhere(rows, FboWarehouseArticle, (w.key, g.key), Free))
              && (forall g | g in w.parts :: g.key in FreeArticles(rows))
  {
    var ws := StocksWarehouseProducts(rows);
    SortedNestFacts(Contribute(rows, WarehouseArticleFbo));
    OneWarehouseArticleFbo(rows);
    forall w | w in ws
      ensures && w.sum == SumWhere(rows, FboWarehouse, w.key, Free)
              && SumBy(w.parts, SumOf) == w.sum
              && Unique(w.parts, KeyOf)
              && (forall g | g in w.parts :: g.sum == SumWhere(rows, FboWarehouseArticle, (w.key, g.key), Free))
              && (forall g | g in w.parts :: g.key in FreeArticles(rows))
    {
      NestedRows(rows, WarehouseArticleFbo, FboWarehouseArticle, FboWarehouse, FreeOne, Free, w);
      NestedRowKeys(rows, WarehouseArticleFbo, FboWarehouseArticle, FreeOne, Free, w);
      forall g | g in w.parts ensures g.key in FreeArticles(rows) {
        var r :| r in rows && Counted(WarehouseArticleFbo, r) && FboWarehouseArticle(r) == (w.key, g.key);
        assert r.itemCode == g.key;
      }
    }
  }
}
