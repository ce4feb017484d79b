/** The per-seller working records and the two lookup indices that
    analyzeSalesData builds before aggregating (src/main.js:59-80). */
module Indexing {
  import opened SalesTypes

  function FullName(seller: Seller): string {
    seller.first_name + " " + seller.last_name
  }

  /** One zeroed stat per seller, in input order. */
  function InitialStats(sellers: seq<Seller>): (stats: seq<Stat>)
    ensures |stats| == |sellers|
    ensures forall k :: 0 <= k < |sellers| ==>
      && stats[k].id == sellers[k].id
      && stats[k].name == FullName(sellers[k])
      && stats[k].revenue == 0.0 && stats[k].profit == 0.0 && stats[k].sales_count == 0
      && stats[k].products_sold == []
  {
    seq(|sellers|, k requires 0 <= k < |sellers| => Stat(sellers[k].id, FullName(sellers[k]), 0.0, 0.0, 0, []))
  }

  /** The seller index: the reduce at :68-73 folds the stats into an object
      keyed by id, a later stat replacing an earlier one with the same id.
      Positions stand for the stat objects the source stores. */
  function SellerIndex(stats: seq<Stat>): map<string, nat>
  {
    if stats == [] then map[]
    else SellerIndex(stats[..|stats| - 1])[stats[|stats| - 1].id := |stats| - 1]
  }

  /** The ids in `index` are exactly the ids of `stats`. */
  ghost predicate IndexesAllIds(stats: seq<Stat>, index: map<string, nat>) {
    forall id :: id in index <==> exists k :: 0 <= k < |stats| && stats[k].id == id
  }

  /** Each id in `index` leads to the last stat of `stats` with that id. */
  ghost predicate PointsToLastStat(stats: seq<Stat>, index: map<string, nat>) {
    && (forall id :: id in index ==> index[id] < |stats| && stats[index[id]].id == id)
    && (forall id, j :: id in index && index[id] < j < |stats| ==> stats[j].id != id)
  }

  /** Every seller id is indexed, nothing else is, and each id leads to the
      LAST stat that carries it. */
  lemma SellerIndexLastWins(stats: seq<Stat>)
    ensures IndexesAllIds(stats, SellerIndex(stats))
    ensures PointsToLastStat(stats, SellerIndex(stats))
  {
    SellerIndexKeys(stats);
    SellerIndexPositions(stats);
  }

  lemma {:induction false} SellerIndexKeys(stats: seq<Stat>)
    ensures IndexesAllIds(stats, SellerIndex(stats))
  {
    if stats != [] {
      var init, last := stats[..|stats| - 1], |stats| - 1;
      SellerIndexKeys(init);
      var prev, index := SellerIndex(init), SellerIndex(stats);
      assert IndexesAllIds(init, prev);
      assert index == prev[stats[last].id := last];
      forall id ensures id in index <==> exists k :: 0 <= k < |stats| && stats[k].id == id {
        if id != stats[last].id && id in index {
          var k :| 0 <= k < |init| && init[k].id == id;
          assert stats[k].id == id;
        }
        if id != stats[last].id && (exists k :: 0 <= k < |stats| && stats[k].id == id) {
          var k :| 0 <= k < |stats| && stats[k].id == id;
          assert init[k].id == id;
        }
      }
    }
  }

  lemma {:induction false} SellerIndexPositions(stats: seq<Stat>)
    ensures PointsToLastStat(stats, SellerIndex(stats))
  {
    if stats != [] {
      var init, last := stats[..|stats| - 1], |stats| - 1;
      SellerIndexPositions(init);
      var prev, index := SellerIndex(init), SellerIndex(stats);
      assert PointsToLastStat(init, prev);
      assert index == prev[stats[last].id := last];
      forall id | id in index ensures index[id] < |stats| && stats[index[id]].id == id {
        if id != stats[last].id {
          assert init[prev[id]] == stats[prev[id]];
        }
      }
      forall id, j | id in index && index[id] < j < |stats| ensures stats[j].id != id {
        if id != stats[last].id && j < last {
          assert init[j] == stats[j];
        }
      }
    }
  }

  /** The product index: the reduce at :75-80 keys the products by sku, a
      later product replacing an earlier one with the same sku. */
  function ProductIndex(products: seq<Product>): map<string, Product>
  {
    if products == [] then map[]
    else ProductIndex(products[..|products| - 1])[products[|products| - 1].sku := products[|products| - 1]]
  }

  /** Every sku is indexed and nothing else is. */
  ghost predicate IndexesAllSkus(products: seq<Product>, index: map<string, Product>) {
    forall sku :: sku in index <==> exists k :: 0 <= k < |products| && products[k].sku == sku
  }

  /** Each indexed sku leads to the LAST product that carries it. */
  ghost predicate PointsToLastProduct(products: seq<Product>, index: map<string, Product>) {
    forall sku :: sku in index ==>
      exists k :: 0 <= k < |products| && products[k] == index[sku] && products[k].sku == sku
                  && forall j :: k < j < |products| ==> products[j].sku != sku
  }

  /** Every sku is indexed, nothing else is, and each sku leads to the LAST
      product that carries it. */
  lemma ProductIndexLastWins(products: seq<Product>)
    ensures IndexesAllSkus(products, ProductIndex(products))
    ensures PointsToLastProduct(products, ProductIndex(products))
  {
    ProductIndexKeys(products);
    ProductIndexPositions(products);
  }

  lemma {:induction false} ProductIndexKeys(products: seq<Product>)
    ensures IndexesAllSkus(products, ProductIndex(products))
  {
    if products != [] {
      var init, last := products[..|products| - 1], |products| - 1;
      ProductIndexKeys(init);
      var prev, index := ProductIndex(init), ProductIndex(products);
      assert index == prev[products[last].sku := products[last]];
      forall sku ensures sku in index <==> exists k :: 0 <= k < |products| && products[k].sku == sku {
        if sku != products[last].sku && sku in index {
          var k :| 0 <= k < |init| && init[k].sku == sku;
          assert products[k].sku == sku;
        }
        if sku != products[last].sku && (exists k :: 0 <= k < |products| && products[k].sku == sku) {
          var k :| 0 <= k < |products| && products[k].sku == sku;
          assert init[k].sku == sku;
        }
      }
    }
  }

  lemma {:induction false} ProductIndexPositions(products: seq<Product>)
    ensures PointsToLastProduct(products, ProductIndex(products))
  {
    if products != [] {
      var init, last := products[..|products| - 1], |products| - 1;
      ProductIndexPositions(init);
      var prev, index := ProductIndex(init), ProductIndex(products);
      assert index == prev[products[last].sku := products[last]];
      forall sku | sku in index
        ensures exists k :: 0 <= k < |products| && products[k] == index[sku] && products[k].sku == sku
                            && forall j :: k < j < |products| ==> products[j].sku != sku
      {
        if sku == products[last].sku {
          assert products[last] == index[sku];
        } else {
          var k :| 0 <= k < |init| && init[k] == prev[sku] && init[k].sku == sku
                   && forall j :: k < j < |init| ==> init[j].sku != sku;
          assert products[k] == init[k];
          assert forall j :: k < j < |products| ==> products[j].sku != sku by {
            forall j | k < j < |products| ensures products[j].sku != sku {
              if j < last { assert products[j] == init[j]; }
            }
          }
        }
      }
    }
  }

  ghost predicate DistinctIds(sellers: seq<Seller>) {
    forall i, j :: 0 <= i < j < |sellers| ==> sellers[i].id != sellers[j].id
  }

  /** With distinct seller ids every stat owns its id in the index. */
  lemma DistinctIdsOwnIndex(sellers: seq<Seller>, k: nat)
    requires DistinctIds(sellers) && k < |sellers|
    ensures var stats := InitialStats(sellers);
            stats[k].id in SellerIndex(stats) && SellerIndex(stats)[stats[k].id] == k
  {
    SellerIndexLastWins(InitialStats(sellers));
  }
}
