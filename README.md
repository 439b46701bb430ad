# DBoard data preparation, modelled in Dafny

DBoard is a sales and stock dashboard for a seller on two marketplaces,
Wildberries (WB) and Ozon. Three Python scripts turn the marketplaces' raw
reports into the JSON document the dashboard reads:

- `Scripts/fetch_wb_data.py` groups the WB stock and order reports.
- `Scripts/fetch_ozon_data.py` groups the Ozon stock, FBO analytics and
  posting reports. It also keeps the finance transactions that record a
  delivery to the customer (a "redemption").
- `Scripts/prepare_dashboard_data.py` combines both. It builds:
  - the stock totals per product;
  - the sales summary of each period (today, yesterday, 3, 7 and 30 days);
  - the redemption totals of each period;
  - the article colours;
  - the logistics cluster of each warehouse;
  - a stock chart whose warehouses are grouped by cluster.

This project models that data-preparation layer and proves what each
aggregation hands to the dashboard. The modules are:

| module | file | what it holds |
|---|---|---|
| `Options` | `options.dfy` | `Option` |
| `Text` | `text.dfy` | Python's `lower`, `upper`, `in` and `startswith` on strings; string order and `sorted` of a set of strings |
| `Ranking` | `ranking.dfy` | `sorted(..., reverse=True)` as `SortDesc`, `[:n]` as `Take`, `Mapped`, `SumBy` |
| `Tally` | `tally.dfy` | the `if key not in d: d[key] = {...}; d[key][...] += ...` walk that every aggregator repeats, and what the dictionary holds after it, nested dictionaries included |
| `Periods` | `periods.dfy` | `periods_config` and the per-period date filter |
| `Colors` | `colors.dfy` | `get_article_color` |
| `Clusters` | `clusters.dfy` | `WB_CLUSTERS`, `OZON_CLUSTERS` and `get_warehouse_cluster` |
| `WbData` | `wb_data.dfy` | the `aggregate_*` functions of `fetch_wb_data.py` |
| `OzonData` | `ozon_data.dfy` | the `aggregate_*` functions of `fetch_ozon_data.py` and the redemption filter |
| `Dashboard` | `dashboard.dfy` | `calculate_total_stocks_by_product`, `aggregate_sales_data` and the period loops of `prepare` |
| `ClusterChart` | `chart.dfy` | the cluster-grouped stock chart that `prepare` builds for each marketplace |

Conventions of the model:

- A Python dictionary that the code returns as `sorted(d.values(), ...)` is
  a sequence of records with distinct keys, in the dictionary's insertion
  order before the sort.
- Each aggregation is a specification function. Where the source loops, a
  `method` with loop invariants is proved equal to that function. Lemmas
  then state what the result means: every key once, sorted, each figure the
  sum over its rows, and totals conserved.
- Money is a whole number of kopecks. Dates are whole day numbers.
  `hash(article)` and `date.today()` are parameters.

## Model

| member | source | states |
|---|---|---|
| Text.Lower | Scripts/prepare_dashboard_data.py:203 | `warehouse_name.lower()` keeps the length and maps each character through the Latin and Cyrillic lower-case mapping |
| Text.Upper | Scripts/prepare_dashboard_data.py:37 | `article.upper()` keeps the length and maps each character through the Latin and Cyrillic upper-case mapping |
| Text.LowerUpper | Scripts/prepare_dashboard_data.py:203 | lower-casing an upper-cased name gives the lower-cased name |
| Text.UpperLower | Scripts/prepare_dashboard_data.py:37 | upper-casing a lower-cased article gives the upper-cased article |
| Text.ContainsOccurrence | Scripts/prepare_dashboard_data.py:206 | `keyword in name` holds exactly when the keyword occurs in the name at some index |
| Text.LessTotal | Scripts/fetch_wb_data.py:142 | any two different strings are ordered one way or the other, so `sorted` of strings is well defined |
| Text.LessTransitive | Scripts/fetch_wb_data.py:142 | the code-point order of strings is transitive |
| Text.LeastExists | Scripts/fetch_wb_data.py:142 | a non-empty set of strings has a least element |
| Text.SortStrings | Scripts/fetch_wb_data.py:142 | `sorted(all_articles)` is strictly ascending and holds exactly the set's elements, each once |
| Ranking.SortDesc | Scripts/fetch_wb_data.py:104 | `sorted(..., reverse=True)` returns a permutation of its input ordered largest key first |
| Ranking.Take | Scripts/fetch_wb_data.py:140 | `[:15]` is a prefix of at most 15 elements, and the whole list when it is shorter |
| Ranking.TakeTop | Scripts/prepare_dashboard_data.py:367 | cutting a descending list to its first n keeps its top n: an element left out is no larger than any element kept |
| Ranking.SumByPermutation | Scripts/prepare_dashboard_data.py:264 | sorting does not change the sum of a figure over a list |
| Ranking.UniqueCount | Scripts/prepare_dashboard_data.py:255 | a list whose keys are distinct and are exactly a given set has the size of that set |
| Tally.Accumulate | Scripts/fetch_wb_data.py:90-105 | the walk that creates a bucket on a key's first appearance and then adds to it yields, in first-appearance order, one bucket per key holding that key's figures |
| Tally.BucketsFacts | Scripts/fetch_wb_data.py:95-102 | the buckets have distinct keys, cover every key met, hold that key's sums, and together hold the totals of all rows |
| Tally.AccumulateNested | Scripts/fetch_wb_data.py:182-200 | the nested dictionary (outer key, then inner key) holds, for each outer key, its figures and the dictionary of its inner keys |
| Tally.SortEachParts | Scripts/fetch_wb_data.py:206-208 | each outer entry's inner dictionary is replaced by its values sorted largest first, and nothing else changes |
| Tally.NestFacts | Scripts/fetch_wb_data.py:182-200 | the outer entries have distinct keys, and each one's figures equal the sums of its inner entries |
| Tally.NestedRows | Scripts/fetch_ozon_data.py:323-342 | an outer entry's count and total are the sums of the contributions of the rows with its key, and each inner entry's the sums over the rows with its pair of keys |
| Tally.RankPartsTop | Scripts/prepare_dashboard_data.py:367-370 | cutting the warehouses to the first 15 and then sorting each one's products keeps the top 15: a warehouse cut holds no more revenue than any kept |
| Periods.FilterByPeriod | Scripts/prepare_dashboard_data.py:525-540 | the filter loop keeps, in order, exactly the rows `Selected` describes |
| Periods.SelectedMembers | Scripts/prepare_dashboard_data.py:528-540 | a row is kept iff it is an input row, its date parses, and the date is the target day (`exact_day`) or no earlier than the start day |
| Periods.SelectedAppend | Scripts/prepare_dashboard_data.py:525-540 | the filter keeps the input order: filtering a concatenation is the concatenation of the filtered parts |
| Periods.SelectedWithin | Scripts/prepare_dashboard_data.py:521-540 | a period whose days lie within a wider one keeps a sub-multiset of the wider one's rows, so it has no more of them |
| Periods.ConfigNests | Scripts/prepare_dashboard_data.py:416-422 | in `periods_config`, today and yesterday lie within 3 days, 3 days within 7 and 7 within 30; yesterday keeps the target day only |
| Periods.WbDay | Scripts/prepare_dashboard_data.py:527-528 | a WB row's day is the parse of `date` when that field is present, even when it does not parse, and the parse of `dateFull` only when `date` is missing or empty |
| Colors.PrefixColor | Scripts/prepare_dashboard_data.py:53-59 | an upper-cased article gets a prefix colour iff it starts with FSF, SF or SM; the colour is teal for FSF, else brown for SF, else burgundy |
| Colors.ArticleColor | Scripts/prepare_dashboard_data.py:33-64 | the colour is the table's when the upper-cased article is in it, else the prefix colour, else `fallback_colors[hash % 5]`; it is always a table colour or a fallback colour |
| Colors.HashOnlyForUnknown | Scripts/prepare_dashboard_data.py:49-60 | a known article gets the same colour whatever its hash |
| Colors.KnownColorIgnoresCase | Scripts/prepare_dashboard_data.py:37 | when two articles agree once upper-cased and one is known, the other is known too and both get the same colour, whatever their hashes |
| Colors.TableRefinesPrefixes | Scripts/prepare_dashboard_data.py:40-59 | every table entry has a prefix colour, and every entry but SF0125, SF0500 and SF2500 has exactly that colour |
| Clusters.TableFor | Scripts/prepare_dashboard_data.py:202 | only `mp_type == 'wb'` selects `WB_CLUSTERS`; any other value selects `OZON_CLUSTERS` |
| Clusters.AnyKeyword | Scripts/prepare_dashboard_data.py:205-207 | the inner loop succeeds iff some keyword of the cluster occurs in the name |
| Clusters.FirstMatch | Scripts/prepare_dashboard_data.py:204-207 | the outer loop finds the first matching cluster row from a given row on, or none when no later row matches |
| Clusters.WarehouseCluster | Scripts/prepare_dashboard_data.py:190-209 | the cluster is the first row, in declaration order, with a keyword contained in the lower-cased name, and `Прочие` when there is none |
| Clusters.FirstClusterUnique | Scripts/prepare_dashboard_data.py:204-209 | the first-match description admits only one answer |
| Clusters.WbWellNamed | Scripts/prepare_dashboard_data.py:67-105 | the WB cluster names are pairwise distinct and none is `Прочие`, so a name identifies its table row |
| Clusters.OzonWellNamed | Scripts/prepare_dashboard_data.py:107-187 | the same for the 26 Ozon cluster names |
| Clusters.OtherIffNoMatch | Scripts/prepare_dashboard_data.py:204-209 | the result is `Прочие` iff no keyword of the selected table occurs in the lower-cased name |
| Clusters.CaseInsensitive | Scripts/prepare_dashboard_data.py:201 | names of equal length whose characters agree once lower-cased resolve to the same cluster |
| Clusters.UpperCaseResolvesAlike | Scripts/prepare_dashboard_data.py:201 | an upper-cased name resolves to the same cluster as the name itself |
| WbData.AggregateStocksByWarehouse | Scripts/fetch_wb_data.py:88-105 | the loop and sort return `StocksByWarehouse` |
| WbData.StocksByWarehouseFigures | Scripts/fetch_wb_data.py:88-105 | each warehouse met appears once and no other, largest quantity first; `quantity` sums its rows' `quantityFull` and `items_count` counts its rows |
| WbData.StocksByWarehouseTotals | Scripts/fetch_wb_data.py:101-102 | the quantities add up to the report's total and the counts to its number of rows |
| WbData.AggregateStocksByWarehouseAndProduct | Scripts/fetch_wb_data.py:108-142 | returns `StocksByWarehouseAndProduct`; `all_articles` is ascending and is exactly the set of articles of rows not skipped |
| WbData.StocksByWarehouseAndProductTop | Scripts/fetch_wb_data.py:140 | at most 15 warehouses, each once, largest total first; one left out holds no more than any kept, and one is left out only when 15 are kept |
| WbData.StockedWarehousesKeys | Scripts/fetch_wb_data.py:121-131 | the warehouses listed are exactly those with a row of nonzero quantity, each once |
| WbData.StocksByWarehouseAndProductFigures | Scripts/fetch_wb_data.py:116-137 | a warehouse's `total` sums its nonzero rows and equals the sum of its `products`; each product appears once, with the sum over its rows there, and is among `all_articles` |
| WbData.Price | Scripts/fetch_wb_data.py:154 | a missing or null `priceWithDisc` counts as 0, a present one as itself |
| WbData.AggregateOrdersByWarehouseAndRegion | Scripts/fetch_wb_data.py:145-169 | the loop and sorts return `OrdersByWarehouse` and `OrdersByRegion` |
| WbData.OrdersByWarehouseFigures | Scripts/fetch_wb_data.py:150-166 | each warehouse of an order appears once and no other, largest revenue first, with the count and price total of its orders |
| WbData.OrdersByRegionFigures | Scripts/fetch_wb_data.py:150-167 | the same for regions |
| WbData.OrdersByWarehouseAndRegionTotals | Scripts/fetch_wb_data.py:156-164 | both breakdowns count every order once and add up to the total revenue |
| WbData.AggregateOrdersByProduct | Scripts/fetch_wb_data.py:172-210 | the loop and sorts return `OrdersByProduct` |
| WbData.OrdersByProductFigures | Scripts/fetch_wb_data.py:176-210 | each article appears once, largest revenue first, with its order count and revenue; its `by_warehouse`, largest revenue first, splits both among its warehouses |
| WbData.OrdersByProductKeys | Scripts/fetch_wb_data.py:177-188 | the products listed are exactly the articles ordered |
| WbData.OrdersByProductTotals | Scripts/fetch_wb_data.py:189-200 | the counts add up to the number of orders and the revenues to the total price |
| OzonData.RedemptionsMembers | Scripts/fetch_ozon_data.py:221-222 | a transaction is kept iff it has type `OperationAgentDeliveredToCustomer` |
| OzonData.RedemptionsAppend | Scripts/fetch_ozon_data.py:221-222 | the filter keeps the order of the transactions |
| OzonData.RedemptionsIdempotent | Scripts/fetch_ozon_data.py:221-222 | filtering twice gives the same list as filtering once |
| OzonData.WarehouseNamesLastWins | Scripts/fetch_ozon_data.py:230 | the id-to-name map knows exactly the listed ids, and an id maps to the name of its last entry |
| OzonData.UnknownWarehouseName | Scripts/fetch_ozon_data.py:239 | an unlisted id is shown as `Warehouse <id>`, a listed one under its last entry's name |
| OzonData.FirstIdFirst | Scripts/fetch_ozon_data.py:242-248 | the `warehouse_id` kept for a name is that of the first FBO entry under the name |
| OzonData.AggregateStocksByWarehouse | Scripts/fetch_ozon_data.py:227-253 | the nested loop and sort return `StocksByWarehouse` |
| OzonData.StocksByWarehouseNames | Scripts/fetch_ozon_data.py:233-252 | only FBO entries count: the names shown are exactly those of FBO entries, each once, largest quantity first |
| OzonData.StocksByWarehouseFigures | Scripts/fetch_ozon_data.py:242-250 | a warehouse's `quantity` sums `present` and `items_count` counts its FBO entries; its id is its first entry's |
| OzonData.StocksByWarehouseTotals | Scripts/fetch_ozon_data.py:249-250 | the quantities add up to all FBO stock and the counts to the number of FBO entries |
| OzonData.OrderValue | Scripts/fetch_ozon_data.py:276-278 | `total_price` is the sum of `price * quantity` over the financial lines |
| OzonData.RegionFallback | Scripts/fetch_ozon_data.py:291-293 | the region is never blank: `cluster_to` when set, else `city` when set, else `Unknown` |
| OzonData.AggregateOrdersByWarehouseAndRegion | Scripts/fetch_ozon_data.py:256-306 | the loop and sorts return `OrdersByWarehouse` and `OrdersByRegion` |
| OzonData.OrdersByWarehouseFigures | Scripts/fetch_ozon_data.py:265-303 | each posting's warehouse appears once and no other, largest revenue first, with the count and value of its postings |
| OzonData.OrdersByRegionFigures | Scripts/fetch_ozon_data.py:290-304 | the same for regions, with the fallback region |
| OzonData.OrdersByWarehouseAndRegionTotals | Scripts/fetch_ozon_data.py:287-301 | both breakdowns count every posting once and add up to the total value |
| OzonData.AggregateSalesByProduct | Scripts/fetch_ozon_data.py:309-355 | the loops and sorts return `SalesByProduct` |
| OzonData.SalesByProductFigures | Scripts/fetch_ozon_data.py:313-355 | each article sold appears once, largest revenue first; its quantity and revenue sum its lines and equal the sums of its warehouse breakdown, which is sorted by revenue |
| OzonData.SalesByProductKeys | Scripts/fetch_ozon_data.py:317-329 | the articles listed are those of the product lines sold |
| OzonData.SalesByProductTotals | Scripts/fetch_ozon_data.py:331-332 | every unit sold and all of the revenue are accounted for |
| OzonData.ItemFbo | Scripts/fetch_ozon_data.py:372-378 | the inner loop sums `present` over FBO entries and counts the FBO entries with positive stock |
| OzonData.AggregateStocksByProduct | Scripts/fetch_ozon_data.py:358-390 | the loop and sort return `StocksByProduct` |
| OzonData.StocksByProductKeys | Scripts/fetch_ozon_data.py:380-390 | the articles shown are exactly those of items whose FBO stock adds up to more than 0, each once, largest quantity first |
| OzonData.StocksByProductFigures | Scripts/fetch_ozon_data.py:380-388 | an article's quantity, which is positive, and its warehouse count are summed over its items |
| OzonData.AggregateStocksByProductFromFbo | Scripts/fetch_ozon_data.py:393-427 | the loop and sort return `StocksByProductFromFbo` |
| OzonData.ArticleSummary | Scripts/fetch_ozon_data.py:415-424 | an article's quantity is the sum of its positive rows, and `warehouses_count` is the number of distinct warehouses among them |
| OzonData.StocksByProductFromFboFigures | Scripts/fetch_ozon_data.py:400-427 | rows with `qty <= 0` are skipped; a product's quantity and distinct-warehouse count come from its kept rows; largest quantity first |
| OzonData.StocksByProductFromFboKeys | Scripts/fetch_ozon_data.py:405-413 | the products shown are exactly those with a row of free stock, each once |
| OzonData.AggregateStocksWarehouseProducts | Scripts/fetch_ozon_data.py:430-464 | returns `StocksWarehouseProducts`; `all_articles` is ascending and is exactly the set of articles with free stock |
| OzonData.StocksWarehouseProductsKeys | Scripts/fetch_ozon_data.py:444-455 | the warehouses shown are exactly those with free stock, each once, largest total first |
| OzonData.StocksWarehouseProductsFigures | Scripts/fetch_ozon_data.py:447-460 | a warehouse's `total` sums its free stock and equals the sum of its `products`; each product appears once with its free stock there and is among `all_articles` |
| Dashboard.CalculateTotalStocksByProduct | Scripts/prepare_dashboard_data.py:227-265 | the two walks and the sorts return `TotalStocksByProduct` |
| Dashboard.CollectStocks | Scripts/prepare_dashboard_data.py:232-250 | the first walk adds every row to its product and only positive rows to the product's warehouse |
| Dashboard.SummarizeProducts | Scripts/prepare_dashboard_data.py:253-261 | the second walk turns each product's bucket, in order, into its record |
| Dashboard.SummarizeProduct | Scripts/prepare_dashboard_data.py:254-261 | one product's record: its quantity, its colour, its warehouses with positive stock sorted by quantity, and their number as `warehouses_count` |
| Dashboard.WarehouseBreakdownFigures | Scripts/prepare_dashboard_data.py:244-261 | a product's `by_warehouse` lists each warehouse with positive stock once, largest first, with its positive quantity summed |
| Dashboard.WarehouseBreakdownKeys | Scripts/prepare_dashboard_data.py:254-255 | `warehouses_count` counts exactly the warehouses holding a positive quantity of the product |
| Dashboard.TotalStocksByProductFigures | Scripts/prepare_dashboard_data.py:227-265 | every product once, largest quantity first; `quantity` sums all of its rows, non-positive ones included; its colour, `by_warehouse` and `warehouses_count` are as above |
| Dashboard.TotalStocksByProductKeys | Scripts/prepare_dashboard_data.py:232-243 | the products listed are exactly the articles of the rows |
| Dashboard.TotalStocksByProductTotal | Scripts/prepare_dashboard_data.py:242 | the product quantities add up to the quantity of all rows |
| Dashboard.AggregateSalesWb | Scripts/prepare_dashboard_data.py:268-385 | the loop and sorts for `mp_type == 'wb'` return `SalesWb` |
| Dashboard.WbSalesByWarehouseFigures | Scripts/prepare_dashboard_data.py:315-325 | at most 15 warehouses, each once, largest revenue first, and a warehouse cut holds no more revenue than any kept; each holds its orders' count and value, and its `by_product` lists, most orders first, each product with the count and value of its orders from that warehouse |
| Dashboard.SalesWbFigures | Scripts/prepare_dashboard_data.py:279-385 | `orders_count` counts the orders; the products' counts and revenues add up to it and to `revenue`; at most 15 regions, the top ones by revenue |
| Dashboard.AggregateSalesOzon | Scripts/prepare_dashboard_data.py:268-385 | the loop and sorts for Ozon return `SalesOzon` |
| Dashboard.OzonRevenue | Scripts/prepare_dashboard_data.py:279-312 | `revenue` is the sum of posting values and `orders_count` the number of postings |
| Dashboard.Unbreak | Scripts/prepare_dashboard_data.py:369-370 | each kept Ozon warehouse keeps its name, count and revenue and gets an empty `by_product`, since the Ozon branch adds no products to it |
| Dashboard.OzonWarehousesTop | Scripts/prepare_dashboard_data.py:367 | an Ozon warehouse cut by `[:15]` holds no more revenue than any warehouse kept |
| Dashboard.OzonRegionsTop | Scripts/prepare_dashboard_data.py:372 | an Ozon region cut by `[:15]` holds no more revenue than any region kept |
| Dashboard.SalesOzonFigures | Scripts/prepare_dashboard_data.py:289-377 | at most 15 warehouses and regions, largest revenue first, and one cut holds no more revenue than any kept; the warehouses have no product breakdown; fewer than 15 warehouses account for every posting and all revenue |
| Dashboard.Summed | Scripts/prepare_dashboard_data.py:568 | the loop computes the sum of a figure over a list |
| Dashboard.PrepareWbPeriod | Scripts/prepare_dashboard_data.py:521-575 | one WB period: the aggregated orders of the period, and the count and `forPay` total of its sales |
| Dashboard.WbPeriods | Scripts/prepare_dashboard_data.py:521-575 | one entry per configured period, in order, each that period's data |
| Dashboard.PrepareOzonPeriod | Scripts/prepare_dashboard_data.py:668-720 | one Ozon period: the aggregated postings, and the count and absolute-amount total of its redemptions |
| Dashboard.OzonPeriods | Scripts/prepare_dashboard_data.py:668-720 | one entry per configured period, in order |
| Dashboard.SumByNonNegative | Scripts/prepare_dashboard_data.py:717 | the redemption revenue, a sum of absolute values, is never negative |
| Dashboard.WbPeriodsNest | Scripts/prepare_dashboard_data.py:521-575 | a period within a wider one has no more orders and no more redemptions than the wider one |
| Dashboard.OzonPeriodsNest | Scripts/prepare_dashboard_data.py:668-720 | the same for Ozon |
| ClusterChart.BuildChart | Scripts/prepare_dashboard_data.py:447-516 | no chart when the warehouses or articles are empty; otherwise the chart laid out in the cluster order `ClusterOrder` describes |
| ClusterChart.GroupByCluster | Scripts/prepare_dashboard_data.py:453-457 | `clustered_warehouses` has exactly the clusters present as keys, each with its warehouses in input order |
| ClusterChart.OrderClusters | Scripts/prepare_dashboard_data.py:460-467 | `sorted_clusters` is the present priority clusters in priority order, then the other present clusters in ascending order |
| ClusterChart.LayOut | Scripts/prepare_dashboard_data.py:476-494 | the loop fills `labels` and `clusters` as `Labels` and `Infos` describe |
| ClusterChart.DataOf | Scripts/prepare_dashboard_data.py:507-511 | a series' `data` is the article's quantity in each warehouse, in chart order |
| ClusterChart.BuildDatasets | Scripts/prepare_dashboard_data.py:497-514 | the loop over `all_articles` returns `Datasets` |
| ClusterChart.MembersPresent | Scripts/prepare_dashboard_data.py:453-457 | a cluster has warehouses iff it is a key of `clustered_warehouses`, iff some warehouse resolves to it |
| ClusterChart.MembersCount | Scripts/prepare_dashboard_data.py:455-457 | a cluster holds each of its warehouses as often as the input does, and no other |
| ClusterChart.OrderMembers | Scripts/prepare_dashboard_data.py:460-467 | `sorted_clusters` lists every present cluster once and nothing else |
| ClusterChart.ClusterOrderUnique | Scripts/prepare_dashboard_data.py:460-467 | the described cluster order admits one list only |
| ClusterChart.PriorityDistinct | Scripts/prepare_dashboard_data.py:460 | neither priority list repeats a name |
| ClusterChart.ClusterRange | Scripts/prepare_dashboard_data.py:482-494 | the labels from a cluster's `start_index` to its `end_index` are the names of its warehouses |
| ClusterChart.ClusterRanges | Scripts/prepare_dashboard_data.py:476-494 | the clusters tile the labels without gap or overlap, from 0 to the last label |
| ClusterChart.Coverage | Scripts/prepare_dashboard_data.py:476-494 | every warehouse gets exactly one label, and the clusters' `total_stock` add up to the stock of all warehouses |
| ClusterChart.ChartLayout | Scripts/prepare_dashboard_data.py:447-494 | in the built chart every cluster has a warehouse, each warehouse one label, and the clusters' stock adds up to the whole |
| ClusterChart.QtyOfFacts | Scripts/prepare_dashboard_data.py:510 | `products.get(article, 0)` is 0 for a missing article and the article's quantity otherwise |
| ClusterChart.DatasetsFacts | Scripts/prepare_dashboard_data.py:497-514 | each series is a listed article with its colour, the fixed border and one value per label, and has a positive value; every article with a positive value somewhere has a series |

## Left out

- Fetching from the marketplace APIs, `load_json`, writing `dashboard_data.json`, printing and the clock are not modelled. Rows arrive as values, and `today` is a parameter.
- `parse_date` is not modelled. A date field is either blank or carries its parsed day, or no day when it does not parse.
- Prices, revenues and `float(price) * qty` are whole kopecks. Floating-point rounding is not modelled.
- `hash(article)` is a parameter, because Python salts it per process.
- `.get(key, default)` defaults are applied before the rows reach the model. Missing fields arrive as `'Unknown'`, `0`, `1` or `''`, as each call site says.
- Text.Lower, Text.Upper: case mapping covers only the Latin and Cyrillic letters; other characters are left unchanged.
- Ranking.SortDesc: proved to return a descending permutation. The stability of Python's `sorted` is not stated, so the order among equal keys is not pinned down.
- Tally.AccumulateNested: the source builds the outer and inner dictionaries in one walk. The model walks once for the outer keys and once more per outer key. The resulting dictionaries and their order are the same.
- OzonData.StocksByProductFigures: `warehouses_count` of an article listed in several items is summed over those items, as the source does. It is not claimed to count distinct warehouses.
- Dashboard.SalesOzonFigures: `aggregate_sales_data` reads `analytics_data` with `.get(..., {})` and `aggregate_sales_by_product` reads it with `or {}`. A posting whose `analytics_data` is null is not modelled.
- In `prepare`, these parts are not modelled: the `summary` totals, the `marketplaces` list, `total_stock_value`, `last_update`, the `[:15]` slices copied into `stocks`, and the `color` added to the Ozon `by_product` items. Each is a copy or a single field lookup.
- ClusterChart.BuildChart: stated for the cluster function `get_warehouse_cluster(name, mp_type)` and the priority list of `mp_type`. Any `mp_type` other than `'wb'` gets the Ozon tables, as in Clusters.TableFor. The layout lemmas hold for any cluster function.
- Dashboard.WbPeriods, Dashboard.OzonPeriods: stated for any list of periods. Periods.ConfigNests covers the five configured ones.
- The WB redemption loop writes only when the period already has a `wb` entry. The model always writes, because the order loop just before it always creates that entry.
