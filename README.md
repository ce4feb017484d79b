# sales-bonus in Dafny

A model of the sales-report pipeline of `src/main.js`. It covers the two
default strategies, the default revenue formula `calculateSimpleRevenue` and
the rank-based `calculateBonusByProfit`, and the report builder
`analyzeSalesData`:

1. it validates `data` and `options`;
2. it builds one zeroed stat per seller, a seller index by id and a product
   index by sku;
3. it folds every purchase record and line item into the stats;
4. it sorts the stats by profit;
5. it adds each seller's bonus and top ten products;
6. it returns the report with its amounts rounded to cents.

Modules, one per stage:

- `SalesTypes` (types.dfy) holds the records. Field names follow the data
  format.
- `Strategies` (strategies.dfy) holds the two default strategies.
- `Indexing` (indexing.dfy) holds the initial stats and the two indexes.
- `Aggregation` (aggregation.dfy) holds the purchase pass. `Aggregate` and
  `AddItems` are folds that state it. `AggregatePurchases` and
  `AddRecordItems` are the nested loops, proved equal to the folds. The
  closed forms say what the loops compute: counts, sums of `total_amount`,
  profit, and quantities per sku.
- `StableSort` (stable_sort.dfy) holds `Array.prototype.sort` with a
  comparator `(a, b) => key(b) - key(a)`. ECMAScript requires that sort to be
  stable. Any stable descending sort produces the same sequence (lemma
  `StableSortUnique`), so an insertion sort stands for it.
- `Reporting` (reporting.dfy) holds the rounding, `top_products`, the
  annotation loop and the output projection.
- `Sequences` (sequences.dfy) holds images and sums of sequences under
  permutation.
- `Analyzer` (analyzer.dfy) holds the spec function `Analysis`. It also holds
  the method `AnalyzeSalesData`, which runs the steps in source order and is
  proved equal to `Analysis`. The theorems about the report are here too.

How the model stands in for JavaScript:

- An error the function throws, or a TypeError from following a missing index
  entry, is an `Err` of `Error`.
- Amounts are exact `real`s and quantities are `int`s.
- The strategies are function values. The revenue strategy takes only the line
  item, as the call at `src/main.js:94` passes only that.
- The seller index maps an id to the position of its stat in `sellerStats`.
  This stands for the shared object reference, which the loop updates through
  the index.
- In both indexes the last record with a key wins, as in the `reduce`.
- `products_sold` is a sequence of `(sku, quantity)` entries in insertion
  order.

## Model

| member | source | states |
|---|---|---|
| Strategies.CalculateSimpleRevenue | src/main.js:7-10 | no discount gives `sale_price * quantity`; a 100% discount gives 0; for a discount between 0 and 100 and non-negative price and quantity, revenue lies between 0 and the gross amount |
| Strategies.CalculateBonusByProfit | src/main.js:19-29 | four disjoint tiers in the order of the if chain: rank 0 gets 15% of profit; ranks 1 and 2 get 10%; from rank 3 on, the last rank gets 0 and every other rank 5% |
| Strategies.SmallTeamBonus | src/main.js:19-29 | with 1 to 3 sellers nobody falls under the "last gets 0" rule: rank 0 gets 15%, the others 10% |
| Strategies.LargeTeamBonus | src/main.js:19-29 | with more than 3 sellers the rates by rank are 15%, 10%, 10%, then 5%, with 0 for the last rank |
| Indexing.InitialStats | src/main.js:59-66 | one stat per seller in input order, with the seller's id and "first last" name, and zero revenue, profit and count, and no products |
| Indexing.SellerIndex | src/main.js:68-73 | the reduce into an id-keyed object, characterised by `Indexing.SellerIndexLastWins` |
| Indexing.SellerIndexLastWins | src/main.js:68-73 | exactly the seller ids are keys; each id leads to a stat with that id, and no later stat has that id |
| Indexing.ProductIndex | src/main.js:75-80 | the reduce into a sku-keyed object, characterised by `Indexing.ProductIndexLastWins` |
| Indexing.ProductIndexLastWins | src/main.js:75-80 | exactly the skus are keys; each sku leads to a product with that sku, and no later product has that sku |
| Indexing.DistinctIdsOwnIndex | src/main.js:59-73 | with distinct seller ids, the index leads every seller's id to that seller's own stat |
| Aggregation.AddQuantity | src/main.js:98-101 | `products_sold[sku]` created at 0 when missing, then raised by the quantity; characterised by `Aggregation.AddQuantityCounts` and `Aggregation.AddQuantityDistinct` |
| Aggregation.AddQuantityCounts | src/main.js:98-101 | adding a quantity under a sku raises that sku's count by exactly that quantity and leaves the other counts alone; the key set gains the sku |
| Aggregation.AddQuantityDistinct | src/main.js:98-101 | `products_sold` keeps one entry per sku |
| Aggregation.AddQuantityAppends | src/main.js:98-101 | a sku not yet sold is added as a new last entry of `products_sold` holding the quantity, and every earlier entry keeps its place and count, so entries stay in first-sale order |
| Aggregation.AddQuantityInPlace | src/main.js:98-101 | a sku already sold keeps its place; only its own entry's quantity grows, by exactly the item's quantity |
| Aggregation.LineProfit | src/main.js:93-96 | one item's profit, the strategy's revenue less `purchase_price * quantity`; how it adds up is stated by `Aggregation.AddItemsTotals` and `Aggregation.AggregateTotals` |
| Aggregation.AddItem | src/main.js:93-101 | the body of the inner forEach for an indexed item; characterised by `Aggregation.AddQuantityCounts`, `Aggregation.AddQuantityAppends`, `Aggregation.AddQuantityInPlace` and `Aggregation.AddItemsTotals` |
| Aggregation.AddItems | src/main.js:90-102 | the inner forEach as a fold; characterised by `Aggregation.AddItemsOutcome`, `Aggregation.AddItemsFailsFirst` and `Aggregation.AddItemsTotals` |
| Aggregation.AddItemsTotals | src/main.js:90-101 | a resolved item fold adds the summed line profit, the per-sku quantities and the skus of its items |
| Aggregation.AddItemsOutcome | src/main.js:90-102 | the items of a record fold without error exactly when every sku is in the product index; a failure names the first unindexed sku in item order; id, name, revenue and count are unchanged |
| Aggregation.AddItemsFailsFirst | src/main.js:90-93 | a failed item fold names the first item, in order, whose sku is not indexed |
| Aggregation.AddRecordItems | src/main.js:90-102 | the inner loop (cost, strategy revenue, `profit +=`, `products_sold[sku] +=`) computes the fold `AddItems`, failing at the first unindexed sku |
| Aggregation.OpenRecord | src/main.js:85-88 | the record's `sales_count += 1` and `revenue += total_amount`; characterised by `Aggregation.AggregateTotals` and `Aggregation.AggregateCountsEveryRecord` |
| Aggregation.Aggregate | src/main.js:84-103 | the outer forEach as a fold; characterised by `Aggregation.AggregateOutcome`, `Aggregation.AggregateFailsFirst`, `Aggregation.AggregateTotals` and `Aggregation.AggregateProductsSold` |
| Aggregation.AggregateOutcome | src/main.js:84-103 | the purchase pass succeeds exactly when every record's seller and every item's product is indexed; it keeps the number, ids and names of the stats; an error comes from the first unresolved reference: the record's seller if that is not indexed, else its first unindexed sku, with every earlier record fully resolved |
| Aggregation.AggregateFailsFirst | src/main.js:84-93 | a failed pass stops at the first record holding an unresolved reference and raises that reference's error |
| Aggregation.AggregatePurchases | src/main.js:84-103 | the outer loop (lookup, `sales_count += 1`, `revenue += total_amount`, the item loop) computes the fold `Aggregate`, failing at the first unresolved reference |
| Aggregation.AggregateTotals | src/main.js:84-101 | the stat at position k gains the number of records attributed to it, the sum of their `total_amount`s and the summed line profit of their items |
| Aggregation.AggregateProductsSold | src/main.js:90-101 | stat k's count for each sku gains the total quantity of that sku over its records; its keys gain exactly the skus sold; skus stay distinct |
| Aggregation.AggregateCountsEveryRecord | src/main.js:84-86 | the sales counts over all stats grow by exactly the number of records |
| Aggregation.AttributedToOwner | src/main.js:68-85 | the stat an id's index entry leads to receives exactly the records carrying that id; a stat shadowed by a later namesake receives none |
| StableSort.Sort | src/main.js:105 | the result is a permutation of the input |
| StableSort.SortSorted | src/main.js:105 | the result is ordered by key, largest first |
| StableSort.SortStable | src/main.js:105 | elements with equal keys keep their input order |
| StableSort.StableSortUnique | src/main.js:105 | any two results that are sorted and stable are equal, so every stable sort agrees with this one |
| Reporting.Round2 | src/main.js:118-122 | `Number(x.toFixed(2))` is a whole number of cents |
| Reporting.Round2Near | src/main.js:118-122 | the rounded amount is within half a cent of the exact one |
| Reporting.Round2Monotone | src/main.js:118-122 | rounding preserves order |
| Reporting.Round2KeepsCents | src/main.js:118-122 | an amount that already is a whole number of cents is unchanged |
| Reporting.TopProducts | src/main.js:109-112 | `top_products` has `min(10, number of entries)` entries |
| Reporting.TopProductsOrdered | src/main.js:109-112 | `top_products` is ordered by quantity, largest first |
| Reporting.TopProductsFromSold | src/main.js:109-112 | every entry of `top_products` is an entry of `products_sold` |
| Reporting.TopProductsMaximal | src/main.js:109-112 | no entry left out sold more than a kept entry |
| Reporting.TopProductsStable | src/main.js:109-112 | among entries of equal quantity, `top_products` keeps the order of `products_sold` |
| Reporting.Annotation | src/main.js:108-112 | the body of the annotation forEach for one rank; what it gives is stated by `Reporting.Annotate` and the `Reporting.TopProducts*` lemmas |
| Reporting.Annotate | src/main.js:107-113 | the loop gives the stat at rank i the strategy's bonus for `(i, n, stat)` and its top products, and leaves the stat unchanged |
| Reporting.Projection | src/main.js:115-123 | the output map; characterised by `Analyzer.AnalysisReportsRanked` |
| Reporting.Project | src/main.js:116-122 | the output object of one seller; what it holds is stated by `Analyzer.AnalysisReportsRanked` and the `Reporting.Round2*` lemmas |
| Analyzer.Validate | src/main.js:38-57 | the three checks in source order; characterised by `Analyzer.AnalysisErrors` |
| Analyzer.Analysis | src/main.js:37-124 | what analyzeSalesData returns or raises; characterised by the `Analyzer` lemmas below and met by `Analyzer.AnalyzeSalesData` |
| Analyzer.Totals | src/main.js:59-103 | the stats after the purchase pass, in seller input order; characterised by `Analyzer.TotalsOutcome`, `Analyzer.TotalsOfSeller` and `Analyzer.TotalsProductsSold` |
| Analyzer.Ranked | src/main.js:105 | the stats sorted by profit; characterised by `Analyzer.AnalysisRanking` and the `StableSort` lemmas |
| Analyzer.Annotations | src/main.js:107-113 | the bonus and top products of every rank; met by the loop `Reporting.Annotate` and characterised by `Analyzer.AnalysisReportsRanked` |
| Analyzer.AnalyzeSalesData | src/main.js:37-124 | the function step by step (checks, stats, indexes, purchase loop, sort, annotation loop, projection) returns what `Analysis` specifies |
| Analyzer.AnalysisErrors | src/main.js:38-57 | the report fails with the invalid-data error exactly when data is absent, a collection is not an array or is empty; with the options error exactly when data is valid and options is not an object; with the missing-functions error exactly when both are valid and a strategy is absent |
| Analyzer.AnalysisSucceedsIffResolved | src/main.js:84-93 | with valid arguments the report is produced exactly when every record names a listed seller and every item a listed product; otherwise the error comes from the first reference, in record and item order, that no input seller or product carries |
| Analyzer.IndexKeys | src/main.js:68-80 | the seller index holds exactly the listed ids and leads each to a stat with that id; the product index holds exactly the listed skus |
| Analyzer.IndexOwner | src/main.js:68-73 | the index leads a seller's id to that seller's stat exactly when no later seller has the same id |
| Analyzer.TotalsOutcome | src/main.js:84-93 | the purchase pass succeeds exactly when every reference resolves; it keeps one stat per seller with its id and name; a failure comes from the first reference, in record and item order, that no input seller or product carries |
| Analyzer.TotalsOfSeller | src/main.js:59-101 | each seller's count, revenue and profit are the number of records carrying its id, the sum of their `total_amount`s and the summed line profit of their items; a seller shadowed by a later namesake gets none of them |
| Analyzer.TotalsProductsSold | src/main.js:90-101 | each seller's `products_sold` has one entry per sku it sold, holding the total quantity of that sku over its records |
| Analyzer.AnalysisReportsRanked | src/main.js:105-123 | the i-th report is the i-th stat of the ranking, its amounts rounded, its top products, and the bonus the strategy gives rank i of n |
| Analyzer.AnalysisRanking | src/main.js:59-105 | the ranking holds the same stats as the seller-ordered totals, by profit largest first, with equal profits in seller input order |
| Analyzer.AnalysisRanksByProfit | src/main.js:105-119 | reported profits are non-increasing |
| Analyzer.AnalysisReportsEverySeller | src/main.js:59-123 | one report per input seller; the reported ids are the input ids rearranged |
| Analyzer.AnalysisCountsEveryRecord | src/main.js:84-86 | the reported sales counts add up to the number of purchase records |
| Analyzer.ReportOfSeller | src/main.js:84-101 | with distinct ids each report carries its seller's name, the number of records with its id, and the rounded sum of their `total_amount`s and of their items' profit |
| Analyzer.TopProductsOfSeller | src/main.js:98-112 | with distinct ids a report's `top_products` has `min(10, skus sold)` entries, each a sku the seller sold with its total quantity, and no sku left out sold more than a kept one |
| Analyzer.OneSellerExample | src/main.js:37-124 | one seller selling 2 units of a product bought at 10 for 20 each, in one record of 40: revenue 40, profit 20, bonus 3, top products `[A: 2]` |

## Left out

- The `window` export guard (`src/main.js:126-130`) is host glue; the three operations are plain Dafny members.
- IEEE-754 doubles: amounts are exact reals. `Round2` rounds the exact value to cents with ties away from zero, as `toFixed` does on exact values; the binary representation of the double, which makes some decimal ties round down, is not modelled, and neither is the exponent form `toFixed` uses from 1e21 on.
- Fractional quantities: a quantity is a JavaScript number, which may be fractional (1.5); the model's quantities are integers, so such an item is not modelled.
- NaN and `undefined` fields (a record without `total_amount`, a non-numeric quantity) are not modelled: every field has a value of its type. The `!seller.products_sold[sku]` reset therefore always amounts to "start at 0 when the key is new".
- Duck typing: every falsy `data` is `None`, a property that is not an array is `None`, `options` that is not a non-null object is `NotAnObject`, and a strategy that is not callable is `None`.
- Strategy calls are modelled as total, pure functions; a strategy that throws or reads `this` is not modelled.
- JavaScript object keys: ids and skus are plain strings. A key that names an inherited property (`"toString"`) is not modelled. `Object.entries` lists integer-like keys first in numeric order, whereas the model keeps insertion order for every sku. This changes the order of equal-quantity entries in `top_products`, and, when equal quantities straddle the tenth place, also which of them are kept: with skus "a" to "j" and then "5", all of quantity 1, the source keeps "5" and drops "j", the model keeps "a" to "j" and drops "5".
- In-place mutation: the stats are values in a sequence that the loops reassign. The objects shared between `sellerStats` and `sellerIndex` are modelled by the index holding positions, and the in-place `sort` by reassigning the sorted sequence.
- Analyzer.ReportOfSeller: stated for distinct seller ids; with duplicates, `Analyzer.TotalsOfSeller` describes every stat, including the shadowed ones that get nothing.
- Analyzer.TopProductsOfSeller: stated for distinct seller ids, for the same reason.
- The spread copies made by the `reduce` calls (`src/main.js:68-80`) cost time only; the model keeps their result, a map in which the last duplicate wins.
- The `_product` parameter of `calculateSimpleRevenue` is never used, and the caller passes only the item; the model drops it.
