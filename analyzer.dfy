/** analyzeSalesData (src/main.js:37-124): validation, the purchase pass, the
    ranking by profit, the annotation pass and the rounded report. */
module Analyzer {
  import opened SalesTypes
  import opened Indexing
  import opened Aggregation
  import opened Reporting
  import StableSort
  import Sequences
  import Strategies

  /** :38-46: `data` is present, its three collections are arrays, and none of
      them is empty. */
  predicate ValidData(data: Option<SalesData>) {
    && data.Some?
    && data.value.sellers.Some? && data.value.products.Some? && data.value.purchase_records.Some?
    && |data.value.sellers.value| > 0
    && |data.value.products.value| > 0
    && |data.value.purchase_records.value| > 0
  }

  /** The arguments once every check has passed. */
  datatype Validated = Validated(
    sellers: seq<Seller>,
    products: seq<Product>,
    records: seq<PurchaseRecord>,
    calculateRevenue: RevenueFn,
    calculateBonus: BonusFn)

  /** :38-57, the three checks in source order. */
  function Validate(data: Option<SalesData>, options: Options): Result<Validated, Error> {
    if !ValidData(data) then Err(InvalidInputData)
    else if options.NotAnObject? then Err(InvalidOptions)
    else if options.calculateRevenue.None? || options.calculateBonus.None? then Err(MissingStrategyFunctions)
    else Ok(Validated(data.value.sellers.value, data.value.products.value, data.value.purchase_records.value,
                      options.calculateRevenue.value, options.calculateBonus.value))
  }

  /** The stats after the purchase pass, in seller input order (:59-103). */
  function Totals(v: Validated): Result<seq<Stat>, Error> {
    var stats := InitialStats(v.sellers);
    SellerIndexLastWins(stats);
    Aggregate(stats, v.records, SellerIndex(stats), ProductIndex(v.products), v.calculateRevenue)
  }

  function ProfitOf(s: Stat): real {
    s.profit
  }

  /** :105: the stats stably sorted by profit, largest first. */
  function Ranked(totals: seq<Stat>): seq<Stat> {
    StableSort.Sort(totals, ProfitOf)
  }

  function Annotations(ranked: seq<Stat>, calculateBonus: BonusFn): seq<RankedStat> {
    seq(|ranked|, i requires 0 <= i < |ranked| => Annotation(ranked[i], i, |ranked|, calculateBonus))
  }

  /** What analyzeSalesData returns, or the error it raises. */
  function Analysis(data: Option<SalesData>, options: Options): Result<seq<Report>, Error> {
    match Validate(data, options)
    case Err(e) => Err(e)
    case Ok(v) =>
      match Totals(v)
      case Err(e) => Err(e)
      case Ok(totals) => Ok(Projection(Annotations(Ranked(totals), v.calculateBonus)))
  }

  /** analyzeSalesData step by step: the checks, the stats, both indexes, the
      purchase loop, the sort, the annotation loop and the projection. */
  method AnalyzeSalesData(data: Option<SalesData>, options: Options) returns (r: Result<seq<Report>, Error>)
    ensures r == Analysis(data, options)
  {
    if || data.None?
       || data.value.sellers.None? || data.value.products.None? || data.value.purchase_records.None?
       || |data.value.sellers.value| == 0
       || |data.value.products.value| == 0
       || |data.value.purchase_records.value| == 0
    {
      return Err(InvalidInputData);
    }
    if options.NotAnObject? {
      return Err(InvalidOptions);
    }
    if options.calculateRevenue.None? || options.calculateBonus.None? {
      return Err(MissingStrategyFunctions);
    }
    var calculateRevenue, calculateBonus := options.calculateRevenue.value, options.calculateBonus.value;
    var sellerStats := InitialStats(data.value.sellers.value);
    var sellerIndex := SellerIndex(sellerStats);
    var productIndex := ProductIndex(data.value.products.value);
    SellerIndexLastWins(sellerStats);
    var aggregated := AggregatePurchases(sellerStats, data.value.purchase_records.value, sellerIndex,
                                         productIndex, calculateRevenue);
    if aggregated.Err? {
      return Err(aggregated.error);
    }
    sellerStats := StableSort.Sort(aggregated.value, ProfitOf);
    var annotated := Annotate(sellerStats, calculateBonus);
    assert annotated == Annotations(sellerStats, calculateBonus);
    r := Ok(Projection(annotated));
  }

  // ---------------------------------------------------------------------
  // Outcome of the purchase pass

  ghost predicate KnownSeller(sellers: seq<Seller>, id: string) {
    exists k :: 0 <= k < |sellers| && sellers[k].id == id
  }

  ghost predicate KnownProduct(products: seq<Product>, sku: string) {
    exists k :: 0 <= k < |products| && products[k].sku == sku
  }

  ghost predicate ItemsKnown(products: seq<Product>, items: seq<LineItem>) {
    forall j :: 0 <= j < |items| ==> KnownProduct(products, items[j].sku)
  }

  /** Every record names a listed seller and every item a listed product. */
  ghost predicate ReferencesResolve(sellers: seq<Seller>, products: seq<Product>, records: seq<PurchaseRecord>) {
    forall i :: 0 <= i < |records| ==>
      KnownSeller(sellers, records[i].seller_id) && ItemsKnown(products, records[i].items)
  }

  /** Record `i` holds the first reference that no input record carries, and
      `e` is the error it raises: its seller id when no seller has it, else
      the first of its skus that no product has. */
  ghost predicate FirstUnknownReference(sellers: seq<Seller>, products: seq<Product>, records: seq<PurchaseRecord>,
                                        i: int, e: Error) {
    && 0 <= i < |records|
    && ReferencesResolve(sellers, products, records[..i])
    && (!KnownSeller(sellers, records[i].seller_id) ==> e == UnresolvedSeller(records[i].seller_id))
    && (KnownSeller(sellers, records[i].seller_id) ==>
          exists j :: && 0 <= j < |records[i].items|
                      && ItemsKnown(products, records[i].items[..j])
                      && !KnownProduct(products, records[i].items[j].sku)
                      && e == UnresolvedProduct(records[i].items[j].sku))
  }

  /** The two indexes hold exactly the listed ids and skus. */
  lemma IndexKeys(v: Validated)
    ensures var stats := InitialStats(v.sellers);
      && IndexWithin(SellerIndex(stats), |stats|)
      && IndexNamesStats(stats, SellerIndex(stats))
      && (forall id :: id in SellerIndex(stats) <==> KnownSeller(v.sellers, id))
      && (forall sku :: sku in ProductIndex(v.products) <==> KnownProduct(v.products, sku))
  {
    var stats := InitialStats(v.sellers);
    SellerIndexLastWins(stats);
    ProductIndexLastWins(v.products);
    forall id ensures id in SellerIndex(stats) <==> KnownSeller(v.sellers, id) {
      if KnownSeller(v.sellers, id) {
        var k :| 0 <= k < |v.sellers| && v.sellers[k].id == id;
        assert stats[k].id == id;
      }
    }
  }

  /** Resolving against the indexes is resolving against the input lists. */
  lemma ResolvedIsKnown(v: Validated, records: seq<PurchaseRecord>)
    ensures var stats := InitialStats(v.sellers);
      && (Resolves(records, SellerIndex(stats), ProductIndex(v.products)) <==> ReferencesResolve(v.sellers, v.products, records))
      && (forall items :: ItemsResolve(items, ProductIndex(v.products)) <==> ItemsKnown(v.products, items))
  {
    IndexKeys(v);
  }

  /** The purchase pass succeeds exactly when every reference resolves; when it
      fails, the error is raised by the first reference, in record and item
      order, that no input record carries. */
  lemma TotalsOutcome(v: Validated)
    ensures Totals(v).Ok? <==> ReferencesResolve(v.sellers, v.products, v.records)
    ensures Totals(v).Ok? ==> |Totals(v).value| == |v.sellers|
    ensures Totals(v).Ok? ==> forall k :: 0 <= k < |v.sellers| ==>
              Totals(v).value[k].id == v.sellers[k].id && Totals(v).value[k].name == FullName(v.sellers[k])
    ensures Totals(v).Err? ==>
              || (Totals(v).error.UnresolvedSeller? && !KnownSeller(v.sellers, Totals(v).error.sellerId))
              || (Totals(v).error.UnresolvedProduct? && !KnownProduct(v.products, Totals(v).error.sku))
    ensures Totals(v).Err? ==> exists i :: FirstUnknownReference(v.sellers, v.products, v.records, i, Totals(v).error)
  {
    var stats := InitialStats(v.sellers);
    var sellers, products := SellerIndex(stats), ProductIndex(v.products);
    IndexKeys(v);
    AggregateOutcome(stats, v.records, sellers, products, v.calculateRevenue);
    ResolvedIsKnown(v, v.records);
    if Totals(v).Err? {
      var e := Totals(v).error;
      var i :| FirstUnresolvedRecord(v.records, sellers, products, i, e);
      ResolvedIsKnown(v, v.records[..i]);
      var record := v.records[i];
      if KnownSeller(v.sellers, record.seller_id) {
        var j :| FirstUnresolvedItem(record.items, products, j) && e == UnresolvedProduct(record.items[j].sku);
        assert ItemsKnown(v.products, record.items[..j]);
      }
      assert FirstUnknownReference(v.sellers, v.products, v.records, i, e);
    }
  }

  /** Only the last of several sellers sharing an id is reachable from the index. */
  ghost predicate LastWithId(sellers: seq<Seller>, k: nat) {
    k < |sellers| && forall j :: k < j < |sellers| ==> sellers[j].id != sellers[k].id
  }

  lemma IndexOwner(v: Validated, k: nat)
    requires k < |v.sellers|
    ensures var stats := InitialStats(v.sellers);
      stats[k].id in SellerIndex(stats) && SellerIndex(stats)[stats[k].id] == k <==> LastWithId(v.sellers, k)
  {
    var stats := InitialStats(v.sellers);
    SellerIndexLastWins(stats);
    var id := stats[k].id;
    assert id in SellerIndex(stats);
    var m := SellerIndex(stats)[id];
    assert stats[m].id == id && v.sellers[m].id == id;
  }

  /** The records a seller is credited with: all records carrying its id, or
      none when a later seller has the same id. */
  ghost function Credited(v: Validated, k: nat): seq<PurchaseRecord>
    requires k < |v.sellers|
  {
    if LastWithId(v.sellers, k) then RecordsOfSeller(v.records, v.sellers[k].id) else []
  }

  /** The purchase pass in closed form: a seller's count, revenue and profit
      are sums over the records credited to it. */
  lemma TotalsOfSeller(v: Validated, k: nat)
    requires Totals(v).Ok? && k < |v.sellers|
    ensures |Totals(v).value| == |v.sellers|
    ensures var t, mine := Totals(v).value[k], Credited(v, k);
      && t.sales_count == |mine|
      && t.revenue == SumTotals(mine)
      && t.profit == RecordsProfit(mine, ProductIndex(v.products), v.calculateRevenue)
  {
    var stats := InitialStats(v.sellers);
    var sellers, products := SellerIndex(stats), ProductIndex(v.products);
    IndexKeys(v);
    TotalsOutcome(v);
    AggregateOutcome(stats, v.records, sellers, products, v.calculateRevenue);
    AggregateTotals(stats, v.records, sellers, products, v.calculateRevenue, k);
    AttributedToOwner(v.records, stats, sellers, k);
    IndexOwner(v, k);
  }

  /** The same closed form for products_sold: one entry per sku the seller
      sold, holding the summed quantity. */
  lemma TotalsProductsSold(v: Validated, k: nat)
    requires Totals(v).Ok? && k < |v.sellers|
    ensures |Totals(v).value| == |v.sellers|
    ensures var sold, mine := Totals(v).value[k].products_sold, Credited(v, k);
      && (forall s :: Quantity(sold, s) == RecordsQuantity(mine, s))
      && Skus(sold) == RecordsSkus(mine)
      && DistinctSkus(sold)
  {
    var stats := InitialStats(v.sellers);
    var sellers, products := SellerIndex(stats), ProductIndex(v.products);
    IndexKeys(v);
    TotalsOutcome(v);
    AggregateOutcome(stats, v.records, sellers, products, v.calculateRevenue);
    AggregateProductsSold(stats, v.records, sellers, products, v.calculateRevenue, k);
    AttributedToOwner(v.records, stats, sellers, k);
    IndexOwner(v, k);
    assert Skus(stats[k].products_sold) == {};
  }

  // ---------------------------------------------------------------------
  // The report

  /** The arguments of a successful analysis, past the checks. */
  ghost function Checked(data: Option<SalesData>, options: Options): Validated
    requires Analysis(data, options).Ok?
  {
    Validate(data, options).value
  }

  /** The stats of a successful analysis in rank order. */
  ghost function RankedStats(data: Option<SalesData>, options: Options): seq<Stat>
    requires Analysis(data, options).Ok?
  {
    Ranked(Totals(Checked(data, options)).value)
  }

  /** The three checks raise their own errors, in source order, and nothing
      else raises them. */
  lemma AnalysisErrors(data: Option<SalesData>, options: Options)
    ensures Analysis(data, options) == Err(InvalidInputData) <==> !ValidData(data)
    ensures Analysis(data, options) == Err(InvalidOptions) <==> ValidData(data) && options.NotAnObject?
    ensures Analysis(data, options) == Err(MissingStrategyFunctions) <==>
              && ValidData(data) && options.StrategyTable?
              && (options.calculateRevenue.None? || options.calculateBonus.None?)
  {
    if Validate(data, options).Ok? {
      TotalsOutcome(Validate(data, options).value);
    }
  }

  /** Past the checks, the report is produced exactly when every record names a
      listed seller and every item a listed product; otherwise the error is
      raised by the first reference, in record and item order, that nothing in
      the input carries. */
  lemma AnalysisSucceedsIffResolved(data: Option<SalesData>, options: Options)
    requires ValidData(data)
    requires options.StrategyTable? && options.calculateRevenue.Some? && options.calculateBonus.Some?
    ensures Analysis(data, options).Ok? <==>
              ReferencesResolve(data.value.sellers.value, data.value.products.value, data.value.purchase_records.value)
    ensures Analysis(data, options).Err? ==>
              || (Analysis(data, options).error.UnresolvedSeller?
                  && !KnownSeller(data.value.sellers.value, Analysis(data, options).error.sellerId))
              || (Analysis(data, options).error.UnresolvedProduct?
                  && !KnownProduct(data.value.products.value, Analysis(data, options).error.sku))
    ensures Analysis(data, options).Err? ==>
              exists i :: FirstUnknownReference(data.value.sellers.value, data.value.products.value,
                                                data.value.purchase_records.value, i, Analysis(data, options).error)
  {
    TotalsOutcome(Validate(data, options).value);
  }

  /** The i-th report is the i-th stat of the ranking, amounts rounded to cents,
      with the bonus the strategy gives rank i of n. */
  lemma AnalysisReportsRanked(data: Option<SalesData>, options: Options)
    requires Analysis(data, options).Ok?
    ensures var v, ranked, out := Checked(data, options), RankedStats(data, options), Analysis(data, options).value;
      && |out| == |ranked| == |v.sellers|
      && forall i :: 0 <= i < |out| ==>
           && out[i].seller_id == ranked[i].id
           && out[i].name == ranked[i].name
           && out[i].revenue == Round2(ranked[i].revenue)
           && out[i].profit == Round2(ranked[i].profit)
           && out[i].sales_count == ranked[i].sales_count
           && out[i].top_products == TopProducts(ranked[i].products_sold)
           && out[i].bonus == Round2(v.calculateBonus(i, |out|, ranked[i]))
  {
    var v := Checked(data, options);
    TotalsOutcome(v);
    var totals := Totals(v).value;
    assert |multiset(Ranked(totals))| == |multiset(totals)|;
  }

  /** The ranking is a stable sort of the stats by profit: it holds the same
      stats, largest profit first, and stats of equal profit keep the order of
      their sellers in the input. */
  lemma AnalysisRanking(data: Option<SalesData>, options: Options)
    requires Analysis(data, options).Ok?
    ensures var v, ranked, totals := Checked(data, options), RankedStats(data, options), Totals(Checked(data, options)).value;
      && |totals| == |v.sellers|
      && (forall k :: 0 <= k < |totals| ==> totals[k].id == v.sellers[k].id)
      && multiset(ranked) == multiset(totals)
      && StableSort.SortedDesc(ranked, ProfitOf)
      && forall p :: StableSort.Filter(ranked, ProfitOf, p) == StableSort.Filter(totals, ProfitOf, p)
  {
    var v := Checked(data, options);
    TotalsOutcome(v);
    var totals := Totals(v).value;
    StableSort.SortSorted(totals, ProfitOf);
    forall p ensures StableSort.Filter(Ranked(totals), ProfitOf, p) == StableSort.Filter(totals, ProfitOf, p) {
      StableSort.SortStable(totals, ProfitOf, p);
    }
  }

  /** Reports come out by rounded profit, largest first. */
  lemma AnalysisRanksByProfit(data: Option<SalesData>, options: Options)
    requires Analysis(data, options).Ok?
    ensures var out := Analysis(data, options).value;
      forall i, j :: 0 <= i < j < |out| ==> out[i].profit >= out[j].profit
  {
    var out, ranked := Analysis(data, options).value, RankedStats(data, options);
    AnalysisReportsRanked(data, options);
    AnalysisRanking(data, options);
    forall i, j | 0 <= i < j < |out| ensures out[i].profit >= out[j].profit {
      assert ProfitOf(ranked[i]) >= ProfitOf(ranked[j]);
      Round2Monotone(ranked[j].profit, ranked[i].profit);
    }
  }

  function ReportId(r: Report): string {
    r.seller_id
  }

  function SellerId(s: Seller): string {
    s.id
  }

  function StatId(s: Stat): string {
    s.id
  }

  /** One report per input seller: the report ids are the seller ids,
      rearranged. */
  lemma AnalysisReportsEverySeller(data: Option<SalesData>, options: Options)
    requires Analysis(data, options).Ok?
    ensures var v, out := Checked(data, options), Analysis(data, options).value;
      && |out| == |v.sellers|
      && multiset(Sequences.Image(out, ReportId)) == multiset(Sequences.Image(v.sellers, SellerId))
  {
    var v, out, ranked := Checked(data, options), Analysis(data, options).value, RankedStats(data, options);
    var totals := Totals(v).value;
    AnalysisReportsRanked(data, options);
    AnalysisRanking(data, options);
    Sequences.ImagePointwise(out, ReportId, ranked, StatId);
    Sequences.PermutationImage(ranked, totals, StatId);
    Sequences.ImagePointwise(totals, StatId, v.sellers, SellerId);
  }

  function SalesOf(r: Report): int {
    r.sales_count
  }

  function StatSales(s: Stat): int {
    s.sales_count
  }

  lemma {:induction false} SalesCountsAsSum(stats: seq<Stat>)
    ensures SumSalesCounts(stats) == Sequences.Sum(Sequences.Image(stats, StatSales))
  {
    if stats != [] {
      SalesCountsAsSum(stats[1..]);
      assert Sequences.Image(stats, StatSales)[1..] == Sequences.Image(stats[1..], StatSales);
    }
  }

  lemma {:induction false} NoSalesYet(sellers: seq<Seller>)
    ensures SumSalesCounts(InitialStats(sellers)) == 0
  {
    if sellers != [] {
      NoSalesYet(sellers[1..]);
      assert InitialStats(sellers)[1..] == InitialStats(sellers[1..]);
    }
  }

  /** Every purchase record is counted once: the sales counts of the report
      add up to the number of records. */
  lemma AnalysisCountsEveryRecord(data: Option<SalesData>, options: Options)
    requires Analysis(data, options).Ok?
    ensures Sequences.Sum(Sequences.Image(Analysis(data, options).value, SalesOf)) == |Checked(data, options).records|
  {
    var v, out, ranked := Checked(data, options), Analysis(data, options).value, RankedStats(data, options);
    var stats := InitialStats(v.sellers);
    var totals := Totals(v).value;
    IndexKeys(v);
    TotalsOutcome(v);
    AggregateOutcome(stats, v.records, SellerIndex(stats), ProductIndex(v.products), v.calculateRevenue);
    AggregateCountsEveryRecord(stats, v.records, SellerIndex(stats), ProductIndex(v.products), v.calculateRevenue);
    NoSalesYet(v.sellers);
    SalesCountsAsSum(totals);
    AnalysisReportsRanked(data, options);
    AnalysisRanking(data, options);
    Sequences.ImagePointwise(out, SalesOf, ranked, StatSales);
    Sequences.PermutationImage(ranked, totals, StatSales);
    Sequences.PermutationSum(Sequences.Image(ranked, StatSales), Sequences.Image(totals, StatSales));
  }

  ghost predicate NamedSeller(sellers: seq<Seller>, id: string, name: string) {
    exists k :: 0 <= k < |sellers| && sellers[k].id == id && name == FullName(sellers[k])
  }

  /** The stat behind the i-th report: a seller k with no later namesake. */
  lemma RankedOrigin(data: Option<SalesData>, options: Options, i: nat) returns (k: nat)
    requires Analysis(data, options).Ok? && DistinctIds(Checked(data, options).sellers)
    requires i < |Analysis(data, options).value|
    ensures k < |Checked(data, options).sellers| && LastWithId(Checked(data, options).sellers, k)
    ensures |Totals(Checked(data, options)).value| == |Checked(data, options).sellers|
    ensures RankedStats(data, options)[i] == Totals(Checked(data, options)).value[k]
    ensures Analysis(data, options).value[i].seller_id == Checked(data, options).sellers[k].id
    ensures Analysis(data, options).value[i].name == FullName(Checked(data, options).sellers[k])
  {
    var v, ranked := Checked(data, options), RankedStats(data, options);
    var totals := Totals(v).value;
    TotalsOutcome(v);
    AnalysisReportsRanked(data, options);
    AnalysisRanking(data, options);
    assert ranked[i] in multiset(totals);
    k :| 0 <= k < |totals| && totals[k] == ranked[i];
  }

  /** With distinct seller ids, each report sums exactly the records that carry
      its seller's id: their count, their `total_amount`s and the profit of
      their items, each rounded to cents. */
  lemma ReportOfSeller(data: Option<SalesData>, options: Options, i: nat)
    requires Analysis(data, options).Ok? && DistinctIds(Checked(data, options).sellers)
    requires i < |Analysis(data, options).value|
    ensures var v, r := Checked(data, options), Analysis(data, options).value[i];
            var mine := RecordsOfSeller(v.records, r.seller_id);
      && NamedSeller(v.sellers, r.seller_id, r.name)
      && r.sales_count == |mine|
      && r.revenue == Round2(SumTotals(mine))
      && r.profit == Round2(RecordsProfit(mine, ProductIndex(v.products), v.calculateRevenue))
  {
    var k := RankedOrigin(data, options, i);
    AnalysisReportsRanked(data, options);
    TotalsOfSeller(Checked(data, options), k);
  }

  /** With distinct seller ids, a report's top_products lists the skus its
      seller sold, each with its summed quantity, at most ten of them, and no
      sku left out sold more than one kept. */
  lemma TopProductsOfSeller(data: Option<SalesData>, options: Options, i: nat)
    requires Analysis(data, options).Ok? && DistinctIds(Checked(data, options).sellers)
    requires i < |Analysis(data, options).value|
    ensures var v, r := Checked(data, options), Analysis(data, options).value[i];
            var mine := RecordsOfSeller(v.records, r.seller_id);
      && |r.top_products| == (if |RecordsSkus(mine)| < TopProductsLimit then |RecordsSkus(mine)| else TopProductsLimit)
      && (forall t :: t in r.top_products ==> t.sku in RecordsSkus(mine) && t.quantity == RecordsQuantity(mine, t.sku))
      && (forall sku, t :: sku in RecordsSkus(mine) && sku !in Skus(r.top_products) && t in r.top_products ==>
            RecordsQuantity(mine, sku) <= t.quantity)
  {
    var v, r := Checked(data, options), Analysis(data, options).value[i];
    var k := RankedOrigin(data, options, i);
    AnalysisReportsRanked(data, options);
    TotalsProductsSold(v, k);
    var sold := Totals(v).value[k].products_sold;
    var mine := RecordsOfSeller(v.records, r.seller_id);
    assert r.top_products == TopProducts(sold);
    DistinctSkusCount(sold);
    TopProductsFromSold(sold);
    forall t | t in r.top_products ensures t.sku in RecordsSkus(mine) && t.quantity == RecordsQuantity(mine, t.sku) {
      QuantityOfEntry(sold, t);
    }
    forall sku, t | sku in RecordsSkus(mine) && sku !in Skus(r.top_products) && t in r.top_products
      ensures RecordsQuantity(mine, sku) <= t.quantity
    {
      var e :| e in sold && e.sku == sku;
      QuantityOfEntry(sold, e);
      TopProductsMaximal(sold, e, t);
    }
  }

  /** The two strategies of the module as an options object. */
  const DefaultOptions: Options :=
    StrategyTable(Some(Strategies.CalculateSimpleRevenue), Some(Strategies.CalculateBonusByProfit))

  const ExampleItem := LineItem("A", 2, 20.0, 0.0)

  const ExampleData := Some(SalesData(Some([Seller("s1", "Ann", "Lee")]), Some([Product("A", 10.0)]),
                                      Some([PurchaseRecord("s1", 40.0, [ExampleItem])])))

  const ExampleTotal := Stat("s1", "Ann Lee", 40.0, 20.0, 1, [SoldEntry("A", 2)])

  lemma ExampleTotals()
    ensures Validate(ExampleData, DefaultOptions).Ok?
    ensures Totals(Validate(ExampleData, DefaultOptions).value) == Ok([ExampleTotal])
  {
    var v := Validate(ExampleData, DefaultOptions).value;
    var stats := InitialStats(v.sellers);
    assert FullName(v.sellers[0]) == "Ann Lee";
    assert stats == [Stat("s1", "Ann Lee", 0.0, 0.0, 0, [])];
    assert stats[..0] == [];
    var sellers, products := SellerIndex(stats), ProductIndex(v.products);
    assert sellers == SellerIndex(stats[..0])[stats[0].id := 0];
    assert sellers == map["s1" := 0];
    assert v.products[..0] == [];
    assert products == map["A" := Product("A", 10.0)];
    assert Strategies.CalculateSimpleRevenue(ExampleItem) == 40.0;
    var header := OpenRecord(stats[0], v.records[0]);
    assert AddItem(header, ExampleItem, products["A"], v.calculateRevenue) == ExampleTotal;
    assert AddItems(ExampleTotal, [], products, v.calculateRevenue) == Ok(ExampleTotal);
    assert AddItems(header, [ExampleItem], products, v.calculateRevenue) == Ok(ExampleTotal);
    assert stats[0 := ExampleTotal] == [ExampleTotal];
    assert Aggregate([ExampleTotal], [], sellers, products, v.calculateRevenue) == Ok([ExampleTotal]);
    assert v.records[1..] == [];
    assert Aggregate(stats, v.records, sellers, products, v.calculateRevenue) == Ok([ExampleTotal]);
  }

  /** One seller selling two units of "A" (bought at 10, sold at 20, no
      discount) in one record of 40: revenue 40, profit 20, a 15% bonus of 3
      for the sole (first) seller, and "A" as the only top product. */
  lemma OneSellerExample()
    ensures Analysis(ExampleData, DefaultOptions)
            == Ok([Report("s1", "Ann Lee", 40.0, 20.0, 1, [SoldEntry("A", 2)], 3.0)])
  {
    ExampleTotals();
    assert Ranked([ExampleTotal]) == [ExampleTotal];
    assert TopProducts(ExampleTotal.products_sold) == [SoldEntry("A", 2)];
    assert Strategies.CalculateBonusByProfit(0, 1, ExampleTotal) == 3.0;
    var annotated := RankedStat(ExampleTotal, 3.0, [SoldEntry("A", 2)]);
    assert Annotations([ExampleTotal], Strategies.CalculateBonusByProfit) == [annotated];
    Round2KeepsCents(40.0, 4000);
    Round2KeepsCents(20.0, 2000);
    Round2KeepsCents(3.0, 300);
    assert Projection([annotated]) == [Report("s1", "Ann Lee", 40.0, 20.0, 1, [SoldEntry("A", 2)], 3.0)];
  }
}
