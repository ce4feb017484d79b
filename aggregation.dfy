/** The aggregation pass of analyzeSalesData (src/main.js:84-103): every
    purchase record, and every line item in it, is folded into the stat of the
    record's seller. */
module Aggregation {
  import opened SalesTypes

  // ---------------------------------------------------------------------------
  // products_sold, a JS object used as a map from sku to a running quantity.

  /** `products_sold[sku]`, where a missing key reads as 0. */
  function Quantity(sold: seq<SoldEntry>, sku: string): int {
    if sold == [] then 0
    else if sold[0].sku == sku then sold[0].quantity
    else Quantity(sold[1..], sku)
  }

  /** The keys of `products_sold`. */
  function Skus(sold: seq<SoldEntry>): set<string> {
    set e | e in sold :: e.sku
  }

  lemma SkusCons(e: SoldEntry, rest: seq<SoldEntry>)
    ensures Skus([e] + rest) == {e.sku} + Skus(rest)
  {
    var r := [e] + rest;
    forall x | x in Skus(r) ensures x in {e.sku} + Skus(rest) {
      var y :| y in r && y.sku == x;
      if y != e { assert y in rest; }
    }
    forall x | x in Skus(rest) ensures x in Skus(r) {
      var y :| y in rest && y.sku == x;
      assert y in r;
    }
  }

  ghost predicate DistinctSkus(sold: seq<SoldEntry>) {
    forall i, j :: 0 <= i < j < |sold| ==> sold[i].sku != sold[j].sku
  }

  /** :98-101: the key is created (at the end) when missing, then the quantity
      is added to it. */
  function AddQuantity(sold: seq<SoldEntry>, sku: string, quantity: int): seq<SoldEntry> {
    if sold == [] then [SoldEntry(sku, quantity)]
    else if sold[0].sku == sku then [sold[0].(quantity := sold[0].quantity + quantity)] + sold[1..]
    else [sold[0]] + AddQuantity(sold[1..], sku, quantity)
  }

  /** Adding `quantity` under `sku` raises that key's count by `quantity`,
      leaves every other key's count alone, and adds `sku` to the keys. */
  lemma {:induction false} AddQuantityCounts(sold: seq<SoldEntry>, sku: string, quantity: int)
    ensures forall s :: Quantity(AddQuantity(sold, sku, quantity), s)
                        == Quantity(sold, s) + (if s == sku then quantity else 0)
    ensures Skus(AddQuantity(sold, sku, quantity)) == Skus(sold) + {sku}
  {
    var r := AddQuantity(sold, sku, quantity);
    if sold == [] {
      assert r == [SoldEntry(sku, quantity)];
      assert r[1..] == [];
      SkusCons(r[0], []);
      assert Skus([]) == {};
      assert [r[0]] + [] == r;
    } else if sold[0].sku == sku {
      assert r[1..] == sold[1..];
      assert sold == [sold[0]] + sold[1..];
      SkusCons(r[0], sold[1..]);
      SkusCons(sold[0], sold[1..]);
    } else {
      var rest := AddQuantity(sold[1..], sku, quantity);
      AddQuantityCounts(sold[1..], sku, quantity);
      assert r[1..] == rest;
      assert sold == [sold[0]] + sold[1..];
      SkusCons(sold[0], rest);
      SkusCons(sold[0], sold[1..]);
    }
  }

  /** A sku seen for the first time goes to the end of `products_sold`; the
      entries already there keep their place, so the entries stay in the
      order their skus were first sold. */
  lemma {:induction false} AddQuantityAppends(sold: seq<SoldEntry>, sku: string, quantity: int)
    requires sku !in Skus(sold)
    ensures AddQuantity(sold, sku, quantity) == sold + [SoldEntry(sku, quantity)]
  {
    if sold != [] {
      assert sold == [sold[0]] + sold[1..];
      SkusCons(sold[0], sold[1..]);
      AddQuantityAppends(sold[1..], sku, quantity);
    }
  }

  /** A sku already present keeps its place and only its count changes. */
  lemma {:induction false} AddQuantityInPlace(sold: seq<SoldEntry>, sku: string, quantity: int, k: int)
    requires 0 <= k < |sold| && sold[k].sku == sku
    requires forall i :: 0 <= i < k ==> sold[i].sku != sku
    ensures AddQuantity(sold, sku, quantity) == sold[k := sold[k].(quantity := sold[k].quantity + quantity)]
  {
    if k > 0 {
      AddQuantityInPlace(sold[1..], sku, quantity, k - 1);
      assert sold == [sold[0]] + sold[1..];
    }
  }

  /** Adding to a key never creates a second entry for it. */
  lemma {:induction false} AddQuantityDistinct(sold: seq<SoldEntry>, sku: string, quantity: int)
    requires DistinctSkus(sold)
    ensures DistinctSkus(AddQuantity(sold, sku, quantity))
  {
    if sold != [] && sold[0].sku != sku {
      var rest := sold[1..];
      AddQuantityDistinct(rest, sku, quantity);
      var r := AddQuantity(sold, sku, quantity);
      assert r == [sold[0]] + AddQuantity(rest, sku, quantity);
      forall e | e in rest ensures e.sku != sold[0].sku {
        var i :| 0 <= i < |rest| && rest[i] == e;
        assert sold[i + 1] == e;
      }
      AddQuantityCounts(rest, sku, quantity);
      assert sold[0].sku !in Skus(rest) + {sku};
      forall i, j | 0 <= i < j < |r| ensures r[i].sku != r[j].sku {
        if i == 0 {
          assert r[j] in AddQuantity(rest, sku, quantity);
        }
      }
    }
  }

  /** With distinct skus, an entry holds the quantity recorded for its sku. */
  lemma {:induction false} QuantityOfEntry(sold: seq<SoldEntry>, e: SoldEntry)
    requires DistinctSkus(sold) && e in sold
    ensures Quantity(sold, e.sku) == e.quantity
  {
    if sold[0] != e {
      assert e in sold[1..];
      var i :| 0 <= i < |sold[1..]| && sold[1..][i] == e;
      assert sold[i + 1] == e;
      QuantityOfEntry(sold[1..], e);
    }
  }

  /** With distinct skus there is one entry per sku. */
  lemma {:induction false} DistinctSkusCount(sold: seq<SoldEntry>)
    requires DistinctSkus(sold)
    ensures |Skus(sold)| == |sold|
  {
    if sold != [] {
      var rest := sold[1..];
      assert sold == [sold[0]] + rest;
      SkusCons(sold[0], rest);
      assert DistinctSkus(rest) by {
        forall i, j | 0 <= i < j < |rest| ensures rest[i].sku != rest[j].sku {
          assert sold[i + 1] == rest[i] && sold[j + 1] == rest[j];
        }
      }
      DistinctSkusCount(rest);
      forall e | e in rest ensures e.sku != sold[0].sku {
        var i :| 0 <= i < |rest| && rest[i] == e;
        assert sold[i + 1] == e;
      }
      assert sold[0].sku !in Skus(rest);
    }
  }

  // ---------------------------------------------------------------------------
  // The fold itself.

  /** What one line item adds to its seller's profit: the strategy's revenue
      less the cost `purchase_price * quantity` (:93-96). */
  function LineProfit(item: LineItem, product: Product, revenue: RevenueFn): real {
    revenue(item) - product.purchase_price * item.quantity as real
  }

  /** The body of the inner forEach for a resolved item (:93-101). */
  function AddItem(seller: Stat, item: LineItem, product: Product, revenue: RevenueFn): Stat {
    seller.(profit := seller.profit + LineProfit(item, product, revenue),
            products_sold := AddQuantity(seller.products_sold, item.sku, item.quantity))
  }

  ghost predicate ItemsResolve(items: seq<LineItem>, products: map<string, Product>) {
    forall j :: 0 <= j < |items| ==> items[j].sku in products
  }

  /** The inner forEach (:90-102); an item whose sku is not indexed dereferences
      `undefined` and aborts. */
  function AddItems(seller: Stat, items: seq<LineItem>, products: map<string, Product>, revenue: RevenueFn)
    : Result<Stat, Error>
    decreases |items|
  {
    if items == [] then Ok(seller)
    else if items[0].sku !in products then Err(UnresolvedProduct(items[0].sku))
    else AddItems(AddItem(seller, items[0], products[items[0].sku], revenue), items[1..], products, revenue)
  }

  /** Item `j` is the first item whose sku is not indexed. */
  ghost predicate FirstUnresolvedItem(items: seq<LineItem>, products: map<string, Product>, j: int) {
    0 <= j < |items| && items[j].sku !in products && ItemsResolve(items[..j], products)
  }

  /** A failed fold stops at the first unindexed sku and names it. */
  lemma {:induction false} AddItemsFailsFirst(seller: Stat, items: seq<LineItem>, products: map<string, Product>, revenue: RevenueFn)
    requires AddItems(seller, items, products, revenue).Err?
    ensures exists j :: FirstUnresolvedItem(items, products, j)
                        && AddItems(seller, items, products, revenue).error == UnresolvedProduct(items[j].sku)
    decreases |items|
  {
    if items[0].sku !in products {
      assert FirstUnresolvedItem(items, products, 0);
    } else {
      var rest := items[1..];
      AddItemsFailsFirst(AddItem(seller, items[0], products[items[0].sku], revenue), rest, products, revenue);
      var j :| FirstUnresolvedItem(rest, products, j)
               && AddItems(seller, items, products, revenue).error == UnresolvedProduct(rest[j].sku);
      assert items[..j + 1] == [items[0]] + rest[..j];
      assert FirstUnresolvedItem(items, products, j + 1);
    }
  }

  /** The items of a record fold without error exactly when all their skus are
      indexed; a failure names the first unindexed sku; the fold touches only
      the profit and products_sold of the stat. */
  lemma {:induction false} AddItemsOutcome(seller: Stat, items: seq<LineItem>, products: map<string, Product>, revenue: RevenueFn)
    ensures var r := AddItems(seller, items, products, revenue);
      && (r.Ok? <==> ItemsResolve(items, products))
      && (r.Ok? ==> && r.value.id == seller.id && r.value.name == seller.name
                    && r.value.revenue == seller.revenue && r.value.sales_count == seller.sales_count)
      && (r.Err? ==> r.error.UnresolvedProduct? && r.error.sku !in products)
      && (r.Err? ==> exists j :: FirstUnresolvedItem(items, products, j) && r.error == UnresolvedProduct(items[j].sku))
    decreases |items|
  {
    if AddItems(seller, items, products, revenue).Err? {
      AddItemsFailsFirst(seller, items, products, revenue);
    }
    if items != [] && items[0].sku in products {
      AddItemsOutcome(AddItem(seller, items[0], products[items[0].sku], revenue), items[1..], products, revenue);
      assert forall j :: 1 <= j < |items| ==> items[j] == items[1..][j - 1];
    }
  }

  /** :86-88: one more sale and the record's `total_amount` added to revenue. */
  function OpenRecord(seller: Stat, record: PurchaseRecord): Stat {
    seller.(sales_count := seller.sales_count + 1, revenue := seller.revenue + record.total_amount)
  }

  ghost predicate IndexWithin(sellers: map<string, nat>, n: nat) {
    forall id :: id in sellers ==> sellers[id] < n
  }

  /** Every record's seller and every item's product is in its index. */
  ghost predicate Resolves(records: seq<PurchaseRecord>, sellers: map<string, nat>, products: map<string, Product>) {
    forall i :: 0 <= i < |records| ==> records[i].seller_id in sellers && ItemsResolve(records[i].items, products)
  }

  /** The outer forEach (:84-103) over the stats, `sellers` mapping each id to
      the position of its stat. A record whose seller is not indexed
      dereferences `undefined` and aborts. */
  function Aggregate(stats: seq<Stat>, records: seq<PurchaseRecord>, sellers: map<string, nat>,
                     products: map<string, Product>, revenue: RevenueFn): Result<seq<Stat>, Error>
    requires IndexWithin(sellers, |stats|)
    decreases |records|
  {
    if records == [] then Ok(stats)
    else if records[0].seller_id !in sellers then Err(UnresolvedSeller(records[0].seller_id))
    else
      var k := sellers[records[0].seller_id];
      match AddItems(OpenRecord(stats[k], records[0]), records[0].items, products, revenue)
      case Err(e) => Err(e)
      case Ok(seller) => Aggregate(stats[k := seller], records[1..], sellers, products, revenue)
  }

  /** Record `i` holds the first unresolved reference, and `e` is the error
      it raises: its seller when that is not indexed, else its first
      unindexed sku. */
  ghost predicate FirstUnresolvedRecord(records: seq<PurchaseRecord>, sellers: map<string, nat>,
                                        products: map<string, Product>, i: int, e: Error) {
    && 0 <= i < |records|
    && Resolves(records[..i], sellers, products)
    && (records[i].seller_id !in sellers ==> e == UnresolvedSeller(records[i].seller_id))
    && (records[i].seller_id in sellers ==>
          exists j :: FirstUnresolvedItem(records[i].items, products, j) && e == UnresolvedProduct(records[i].items[j].sku))
  }

  /** A failed pass stops at the first unresolved reference in record order. */
  lemma {:induction false} AggregateFailsFirst(stats: seq<Stat>, records: seq<PurchaseRecord>, sellers: map<string, nat>,
                                               products: map<string, Product>, revenue: RevenueFn)
    requires IndexWithin(sellers, |stats|)
    requires Aggregate(stats, records, sellers, products, revenue).Err?
    ensures exists i :: FirstUnresolvedRecord(records, sellers, products, i,
                                              Aggregate(stats, records, sellers, products, revenue).error)
    decreases |records|
  {
    var e := Aggregate(stats, records, sellers, products, revenue).error;
    assert records[..0] == [];
    if records[0].seller_id !in sellers {
      assert FirstUnresolvedRecord(records, sellers, products, 0, e);
    } else {
      var k := sellers[records[0].seller_id];
      var header := OpenRecord(stats[k], records[0]);
      if AddItems(header, records[0].items, products, revenue).Err? {
        AddItemsFailsFirst(header, records[0].items, products, revenue);
        assert FirstUnresolvedRecord(records, sellers, products, 0, e);
      } else {
        var seller := AddItems(header, records[0].items, products, revenue).value;
        AddItemsOutcome(header, records[0].items, products, revenue);
        var rest := records[1..];
        AggregateFailsFirst(stats[k := seller], rest, sellers, products, revenue);
        var i :| FirstUnresolvedRecord(rest, sellers, products, i, e);
        assert records[..i + 1] == [records[0]] + rest[..i];
        assert records[i + 1] == rest[i];
        assert FirstUnresolvedRecord(records, sellers, products, i + 1, e);
      }
    }
  }

  /** The whole pass succeeds exactly when every reference resolves; on
      success there is still one stat per position, with its id and name; on
      failure the error is raised by the first unresolved reference. */
  lemma {:induction false} AggregateOutcome(stats: seq<Stat>, records: seq<PurchaseRecord>, sellers: map<string, nat>,
                                            products: map<string, Product>, revenue: RevenueFn)
    requires IndexWithin(sellers, |stats|)
    ensures var r := Aggregate(stats, records, sellers, products, revenue);
      && (r.Ok? <==> Resolves(records, sellers, products))
      && (r.Ok? ==> |r.value| == |stats|)
      && (r.Ok? ==> forall k :: 0 <= k < |stats| ==> r.value[k].id == stats[k].id && r.value[k].name == stats[k].name)
      && (r.Err? ==> || (r.error.UnresolvedSeller? && r.error.sellerId !in sellers)
                     || (r.error.UnresolvedProduct? && r.error.sku !in products))
      && (r.Err? ==> exists i :: FirstUnresolvedRecord(records, sellers, products, i, r.error))
    decreases |records|
  {
    if Aggregate(stats, records, sellers, products, revenue).Err? {
      AggregateFailsFirst(stats, records, sellers, products, revenue);
    }
    if records != [] && records[0].seller_id in sellers {
      var k := sellers[records[0].seller_id];
      AddItemsOutcome(OpenRecord(stats[k], records[0]), records[0].items, products, revenue);
      match AddItems(OpenRecord(stats[k], records[0]), records[0].items, products, revenue)
      case Err(e) =>
      case Ok(seller) =>
        AggregateOutcome(stats[k := seller], records[1..], sellers, products, revenue);
        assert forall i :: 1 <= i < |records| ==> records[i] == records[1..][i - 1];
    }
  }

  /** One step of AddItems, taken at position `j`. */
  lemma AddItemsAt(seller: Stat, items: seq<LineItem>, j: nat, products: map<string, Product>, revenue: RevenueFn)
    requires j < |items|
    ensures items[j].sku !in products ==>
      AddItems(seller, items[j..], products, revenue) == Err(UnresolvedProduct(items[j].sku))
    ensures items[j].sku in products ==>
      AddItems(seller, items[j..], products, revenue)
      == AddItems(AddItem(seller, items[j], products[items[j].sku], revenue), items[j + 1..], products, revenue)
  {
    assert items[j..][0] == items[j] && items[j..][1..] == items[j + 1..];
  }

  /** The inner forEach (:90-102), updating the record's seller stat. */
  method AddRecordItems(seller0: Stat, items: seq<LineItem>, products: map<string, Product>, revenue: RevenueFn)
    returns (r: Result<Stat, Error>)
    ensures r == AddItems(seller0, items, products, revenue)
  {
    var seller := seller0;
    var j := 0;
    while j < |items|
      invariant 0 <= j <= |items|
      invariant AddItems(seller0, items, products, revenue) == AddItems(seller, items[j..], products, revenue)
    {
      var item := items[j];
      AddItemsAt(seller, items, j, products, revenue);
      if item.sku !in products {
        return Err(UnresolvedProduct(item.sku));
      }
      var product := products[item.sku];
      var cost := product.purchase_price * item.quantity as real;
      var itemRevenue := revenue(item);
      assert LineProfit(item, product, revenue) == itemRevenue - cost;
      ghost var before := seller;
      seller := seller.(profit := seller.profit + (itemRevenue - cost));
      seller := seller.(products_sold := AddQuantity(seller.products_sold, item.sku, item.quantity));
      assert seller == AddItem(before, item, product, revenue);
      j := j + 1;
    }
    assert items[j..] == [];
    return Ok(seller);
  }

  /** One step of Aggregate, taken at record `i`. */
  lemma AggregateAt(stats: seq<Stat>, records: seq<PurchaseRecord>, i: nat, sellers: map<string, nat>,
                    products: map<string, Product>, revenue: RevenueFn)
    requires IndexWithin(sellers, |stats|) && i < |records|
    ensures records[i].seller_id !in sellers ==>
      Aggregate(stats, records[i..], sellers, products, revenue) == Err(UnresolvedSeller(records[i].seller_id))
    ensures records[i].seller_id in sellers ==>
      var k := sellers[records[i].seller_id];
      var r := AddItems(OpenRecord(stats[k], records[i]), records[i].items, products, revenue);
      && (r.Err? ==> Aggregate(stats, records[i..], sellers, products, revenue) == Err(r.error))
      && (r.Ok? ==> Aggregate(stats, records[i..], sellers, products, revenue)
                    == Aggregate(stats[k := r.value], records[i + 1..], sellers, products, revenue))
  {
    assert records[i..][0] == records[i] && records[i..][1..] == records[i + 1..];
  }

  /** The outer forEach (:84-103); `sellers` stands for the seller index, whose
      entries alias the stats, so an update through it is an update of the
      stat at that position. */
  method AggregatePurchases(stats0: seq<Stat>, records: seq<PurchaseRecord>, sellers: map<string, nat>,
                            products: map<string, Product>, revenue: RevenueFn)
    returns (r: Result<seq<Stat>, Error>)
    requires IndexWithin(sellers, |stats0|)
    ensures r == Aggregate(stats0, records, sellers, products, revenue)
  {
    var stats := stats0;
    var i := 0;
    while i < |records|
      invariant 0 <= i <= |records|
      invariant |stats| == |stats0|
      invariant Aggregate(stats0, records, sellers, products, revenue)
             == Aggregate(stats, records[i..], sellers, products, revenue)
    {
      var record := records[i];
      AggregateAt(stats, records, i, sellers, products, revenue);
      if record.seller_id !in sellers {
        return Err(UnresolvedSeller(record.seller_id));
      }
      var k := sellers[record.seller_id];
      var seller := stats[k];
      seller := seller.(sales_count := seller.sales_count + 1);
      seller := seller.(revenue := seller.revenue + record.total_amount);
      var updated := AddRecordItems(seller, record.items, products, revenue);
      if updated.Err? {
        return Err(updated.error);
      }
      stats := stats[k := updated.value];
      i := i + 1;
    }
    assert records[i..] == [];
    return Ok(stats);
  }

  // ---------------------------------------------------------------------------
  // Closed forms: what the pass computes, written as sums over the records.

  /** The records that the pass attributes to the stat at position `k`. */
  function AttributedTo(records: seq<PurchaseRecord>, sellers: map<string, nat>, k: nat): seq<PurchaseRecord> {
    if records == [] then []
    else (if records[0].seller_id in sellers && sellers[records[0].seller_id] == k then [records[0]] else [])
         + AttributedTo(records[1..], sellers, k)
  }

  /** The records whose `seller_id` is `id`, in input order. */
  function RecordsOfSeller(records: seq<PurchaseRecord>, id: string): seq<PurchaseRecord> {
    if records == [] then []
    else (if records[0].seller_id == id then [records[0]] else []) + RecordsOfSeller(records[1..], id)
  }

  function SumTotals(records: seq<PurchaseRecord>): real {
    if records == [] then 0.0 else records[0].total_amount + SumTotals(records[1..])
  }

  /** The summed line profit of the items whose product is indexed (when every
      reference resolves, of all the items). */
  function ItemsProfit(items: seq<LineItem>, products: map<string, Product>, revenue: RevenueFn): real {
    if items == [] then 0.0
    else (if items[0].sku in products then LineProfit(items[0], products[items[0].sku], revenue) else 0.0)
         + ItemsProfit(items[1..], products, revenue)
  }

  function RecordsProfit(records: seq<PurchaseRecord>, products: map<string, Product>, revenue: RevenueFn): real {
    if records == [] then 0.0
    else ItemsProfit(records[0].items, products, revenue) + RecordsProfit(records[1..], products, revenue)
  }

  /** The total quantity of `sku` over `items`. */
  function ItemsQuantity(items: seq<LineItem>, sku: string): int {
    if items == [] then 0
    else (if items[0].sku == sku then items[0].quantity else 0) + ItemsQuantity(items[1..], sku)
  }

  function RecordsQuantity(records: seq<PurchaseRecord>, sku: string): int {
    if records == [] then 0 else ItemsQuantity(records[0].items, sku) + RecordsQuantity(records[1..], sku)
  }

  function ItemsSkus(items: seq<LineItem>): set<string> {
    if items == [] then {} else {items[0].sku} + ItemsSkus(items[1..])
  }

  function RecordsSkus(records: seq<PurchaseRecord>): set<string> {
    if records == [] then {} else ItemsSkus(records[0].items) + RecordsSkus(records[1..])
  }

  /** Peeling the first record off the records attributed to `k`. */
  lemma AttributedStep(records: seq<PurchaseRecord>, sellers: map<string, nat>, k: nat)
    requires records != [] && records[0].seller_id in sellers
    ensures var mine, rest := AttributedTo(records, sellers, k), AttributedTo(records[1..], sellers, k);
      if sellers[records[0].seller_id] == k then
        && |mine| == |rest| + 1
        && SumTotals(mine) == records[0].total_amount + SumTotals(rest)
        && (forall products, revenue :: RecordsProfit(mine, products, revenue)
              == ItemsProfit(records[0].items, products, revenue) + RecordsProfit(rest, products, revenue))
        && (forall sku :: RecordsQuantity(mine, sku) == ItemsQuantity(records[0].items, sku) + RecordsQuantity(rest, sku))
        && RecordsSkus(mine) == ItemsSkus(records[0].items) + RecordsSkus(rest)
      else mine == rest
  {
    var mine, rest := AttributedTo(records, sellers, k), AttributedTo(records[1..], sellers, k);
    if sellers[records[0].seller_id] == k {
      assert mine == [records[0]] + rest;
      assert mine[0] == records[0] && mine[1..] == rest;
    } else {
      assert mine == [] + rest;
    }
  }

  /** The items of one record add their summed line profit to the stat's
      profit and their quantities, sku by sku, to its products_sold. */
  lemma {:induction false} AddItemsTotals(seller: Stat, items: seq<LineItem>, products: map<string, Product>, revenue: RevenueFn)
    requires ItemsResolve(items, products)
    ensures AddItems(seller, items, products, revenue).Ok?
    ensures var r := AddItems(seller, items, products, revenue).value;
      && r.profit == seller.profit + ItemsProfit(items, products, revenue)
      && (forall s :: Quantity(r.products_sold, s) == Quantity(seller.products_sold, s) + ItemsQuantity(items, s))
      && Skus(r.products_sold) == Skus(seller.products_sold) + ItemsSkus(items)
      && (DistinctSkus(seller.products_sold) ==> DistinctSkus(r.products_sold))
    decreases |items|
  {
    AddItemsOutcome(seller, items, products, revenue);
    if items != [] {
      var item, rest := items[0], items[1..];
      assert forall j :: 0 <= j < |rest| ==> rest[j] == items[j + 1];
      var next := AddItem(seller, item, products[item.sku], revenue);
      AddItemsTotals(next, rest, products, revenue);
      AddQuantityCounts(seller.products_sold, item.sku, item.quantity);
      if DistinctSkus(seller.products_sold) {
        AddQuantityDistinct(seller.products_sold, item.sku, item.quantity);
      }
    }
  }

  /** Closed form of the pass for the stat at position `k`: one sale and the
      `total_amount` of every record attributed to it, the line profit of
      all their items, and their quantities sku by sku. */
  lemma {:induction false} AggregateTotals(stats: seq<Stat>, records: seq<PurchaseRecord>, sellers: map<string, nat>,
                                           products: map<string, Product>, revenue: RevenueFn, k: nat)
    requires IndexWithin(sellers, |stats|) && Resolves(records, sellers, products) && k < |stats|
    ensures Aggregate(stats, records, sellers, products, revenue).Ok?
    ensures |Aggregate(stats, records, sellers, products, revenue).value| == |stats|
    ensures var r := Aggregate(stats, records, sellers, products, revenue).value;
            var mine := AttributedTo(records, sellers, k);
      && r[k].sales_count == stats[k].sales_count + |mine|
      && r[k].revenue == stats[k].revenue + SumTotals(mine)
      && r[k].profit == stats[k].profit + RecordsProfit(mine, products, revenue)
    decreases |records|
  {
    AggregateOutcome(stats, records, sellers, products, revenue);
    if records != [] {
      var record, rest := records[0], records[1..];
      assert forall i :: 0 <= i < |rest| ==> rest[i] == records[i + 1];
      var k0 := sellers[record.seller_id];
      var header := OpenRecord(stats[k0], record);
      AddItemsTotals(header, record.items, products, revenue);
      AddItemsOutcome(header, record.items, products, revenue);
      var next := stats[k0 := AddItems(header, record.items, products, revenue).value];
      AggregateTotals(next, rest, sellers, products, revenue, k);
      AttributedStep(records, sellers, k);
    }
  }

  /** The same closed form for products_sold. */
  lemma {:induction false} AggregateProductsSold(stats: seq<Stat>, records: seq<PurchaseRecord>, sellers: map<string, nat>,
                                                 products: map<string, Product>, revenue: RevenueFn, k: nat)
    requires IndexWithin(sellers, |stats|) && Resolves(records, sellers, products) && k < |stats|
    ensures Aggregate(stats, records, sellers, products, revenue).Ok?
    ensures |Aggregate(stats, records, sellers, products, revenue).value| == |stats|
    ensures var r := Aggregate(stats, records, sellers, products, revenue).value;
            var mine := AttributedTo(records, sellers, k);
      && (forall s :: Quantity(r[k].products_sold, s) == Quantity(stats[k].products_sold, s) + RecordsQuantity(mine, s))
      && Skus(r[k].products_sold) == Skus(stats[k].products_sold) + RecordsSkus(mine)
      && (DistinctSkus(stats[k].products_sold) ==> DistinctSkus(r[k].products_sold))
    decreases |records|
  {
    AggregateOutcome(stats, records, sellers, products, revenue);
    if records != [] {
      var record, rest := records[0], records[1..];
      assert forall i :: 0 <= i < |rest| ==> rest[i] == records[i + 1];
      var k0 := sellers[record.seller_id];
      var header := OpenRecord(stats[k0], record);
      AddItemsTotals(header, record.items, products, revenue);
      AddItemsOutcome(header, record.items, products, revenue);
      var next := stats[k0 := AddItems(header, record.items, products, revenue).value];
      AggregateProductsSold(next, rest, sellers, products, revenue, k);
      AttributedStep(records, sellers, k);
    }
  }

  function SumSalesCounts(stats: seq<Stat>): nat {
    if stats == [] then 0 else stats[0].sales_count + SumSalesCounts(stats[1..])
  }

  lemma {:induction false} SumSalesCountsUpdate(stats: seq<Stat>, k: nat, x: Stat)
    requires k < |stats|
    ensures SumSalesCounts(stats[k := x]) == SumSalesCounts(stats) - stats[k].sales_count + x.sales_count
  {
    if k > 0 {
      SumSalesCountsUpdate(stats[1..], k - 1, x);
      assert stats[k := x][1..] == stats[1..][k - 1 := x];
    } else {
      assert stats[k := x][1..] == stats[1..];
    }
  }

  /** Conservation: every record, once resolved, adds exactly one sale to
      exactly one stat. */
  lemma {:induction false} AggregateCountsEveryRecord(stats: seq<Stat>, records: seq<PurchaseRecord>, sellers: map<string, nat>,
                                                      products: map<string, Product>, revenue: RevenueFn)
    requires IndexWithin(sellers, |stats|) && Resolves(records, sellers, products)
    ensures Aggregate(stats, records, sellers, products, revenue).Ok?
    ensures SumSalesCounts(Aggregate(stats, records, sellers, products, revenue).value)
            == SumSalesCounts(stats) + |records|
    decreases |records|
  {
    AggregateOutcome(stats, records, sellers, products, revenue);
    if records != [] {
      var record, rest := records[0], records[1..];
      assert forall i :: 0 <= i < |rest| ==> rest[i] == records[i + 1];
      var k0 := sellers[record.seller_id];
      var header := OpenRecord(stats[k0], record);
      AddItemsOutcome(header, record.items, products, revenue);
      var seller := AddItems(header, record.items, products, revenue).value;
      var next := stats[k0 := seller];
      SumSalesCountsUpdate(stats, k0, seller);
      AggregateCountsEveryRecord(next, rest, sellers, products, revenue);
    }
  }

  /** The index names the stats: each indexed id leads to a stat with that id. */
  ghost predicate IndexNamesStats(stats: seq<Stat>, sellers: map<string, nat>) {
    forall id :: id in sellers ==> sellers[id] < |stats| && stats[sellers[id]].id == id
  }

  /** When the index leads each id to a stat with that id, the stat at `k`
      receives exactly the records with its id if the index leads its id to
      `k`, and none otherwise (an earlier stat with a duplicate id). */
  lemma {:induction false} AttributedToOwner(records: seq<PurchaseRecord>, stats: seq<Stat>, sellers: map<string, nat>, k: nat)
    requires IndexNamesStats(stats, sellers) && k < |stats|
    ensures stats[k].id in sellers && sellers[stats[k].id] == k ==>
              AttributedTo(records, sellers, k) == RecordsOfSeller(records, stats[k].id)
    ensures !(stats[k].id in sellers && sellers[stats[k].id] == k) ==> AttributedTo(records, sellers, k) == []
  {
    if records != [] {
      AttributedToOwner(records[1..], stats, sellers, k);
    }
  }
}
