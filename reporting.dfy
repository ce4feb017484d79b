/** The annotation pass and the output projection of analyzeSalesData
    (src/main.js:107-123). */
module Reporting {
  import opened SalesTypes
  import StableSort

  /** `x.toFixed(2)` read back as a whole number of hundredths. toFixed rounds
      the magnitude to the nearest hundredth, taking the larger candidate on a
      tie, and puts the sign back: ties go away from zero. */
  function Cents(x: real): int {
    if x < 0.0 then -((-x * 100.0 + 0.5).Floor) else (x * 100.0 + 0.5).Floor
  }

  /** `Number(x.toFixed(2))` on exact amounts: a whole number of cents. */
  function Round2(x: real): (r: real)
    ensures r * 100.0 == Cents(x) as real
  {
    Cents(x) as real / 100.0
  }

  /** The rounded amount is within half a cent of the exact one. */
  lemma Round2Near(x: real)
    ensures -0.005 <= Round2(x) - x <= 0.005
  {
    var c := Cents(x) as real;
    if x < 0.0 {
      assert -c <= -x * 100.0 + 0.5 < -c + 1.0;
    } else {
      assert c <= x * 100.0 + 0.5 < c + 1.0;
    }
    assert -0.5 <= c - x * 100.0 <= 0.5;
    assert Round2(x) - x == (c - x * 100.0) / 100.0;
  }

  lemma CentsMonotone(x: real, y: real)
    requires x <= y
    ensures Cents(x) <= Cents(y)
  {
    if x < 0.0 && y < 0.0 {
      assert -y * 100.0 + 0.5 <= -x * 100.0 + 0.5;
    } else if 0.0 <= x {
      assert x * 100.0 + 0.5 <= y * 100.0 + 0.5;
    } else {
      assert Cents(x) <= 0 <= Cents(y);
    }
  }

  /** Rounding never reverses an order, so the report stays ranked. */
  lemma Round2Monotone(x: real, y: real)
    requires x <= y
    ensures Round2(x) <= Round2(y)
  {
    CentsMonotone(x, y);
  }

  /** An amount that already is a whole number of cents is left as it is. */
  lemma Round2KeepsCents(x: real, c: int)
    requires x * 100.0 == c as real
    ensures Round2(x) == x
  {
    if x < 0.0 {
      assert (-x * 100.0 + 0.5).Floor == -c;
    } else {
      assert (x * 100.0 + 0.5).Floor == c;
    }
  }

  /** At most this many entries are kept in `top_products` (:112). */
  const TopProductsLimit: nat := 10

  function QuantityKey(e: SoldEntry): real {
    e.quantity as real
  }

  /** :109-112: the entries of products_sold, stably sorted by quantity,
      largest first, cut to the first ten. */
  function TopProducts(sold: seq<SoldEntry>): (top: seq<SoldEntry>)
    ensures |top| == if |sold| < TopProductsLimit then |sold| else TopProductsLimit
  {
    var sorted := StableSort.Sort(sold, QuantityKey);
    assert |multiset(sorted)| == |multiset(sold)|;
    sorted[..if |sorted| < TopProductsLimit then |sorted| else TopProductsLimit]
  }

  /** Filtering a prefix gives a prefix of the filtered whole. */
  lemma {:induction false} FilterOfPrefix<T>(s: seq<T>, n: nat, key: T -> real, v: real)
    requires n <= |s|
    ensures StableSort.Filter(s[..n], key, v) <= StableSort.Filter(s, key, v)
    decreases |s| - n
  {
    if n < |s| {
      var init := s[..|s| - 1];
      assert s[..n] == init[..n];
      FilterOfPrefix(init, n, key, v);
    } else {
      assert s[..n] == s;
    }
  }

  /** The kept entries are a prefix of the stably sorted products_sold. */
  lemma {:induction false} TopIsSortedPrefix(sold: seq<SoldEntry>)
    ensures TopProducts(sold) == StableSort.Sort(sold, QuantityKey)[..|TopProducts(sold)|]
    ensures |StableSort.Sort(sold, QuantityKey)| == |sold|
  {
    assert |multiset(StableSort.Sort(sold, QuantityKey))| == |multiset(sold)|;
  }

  /** top_products is ordered by quantity, largest first. */
  lemma TopProductsOrdered(sold: seq<SoldEntry>)
    ensures forall i, j :: 0 <= i < j < |TopProducts(sold)| ==>
              TopProducts(sold)[i].quantity >= TopProducts(sold)[j].quantity
  {
    var sorted := StableSort.Sort(sold, QuantityKey);
    var top := TopProducts(sold);
    TopIsSortedPrefix(sold);
    StableSort.SortSorted(sold, QuantityKey);
    forall i, j | 0 <= i < j < |top| ensures top[i].quantity >= top[j].quantity {
      assert QuantityKey(sorted[i]) >= QuantityKey(sorted[j]);
    }
  }

  /** Every kept entry comes from products_sold. */
  lemma TopProductsFromSold(sold: seq<SoldEntry>)
    ensures forall t :: t in TopProducts(sold) ==> t in sold
  {
    var sorted := StableSort.Sort(sold, QuantityKey);
    TopIsSortedPrefix(sold);
    forall t | t in TopProducts(sold) ensures t in sold {
      assert t in multiset(sorted);
    }
  }

  /** No entry left out of top_products sold more than a kept one. */
  lemma TopProductsMaximal(sold: seq<SoldEntry>, e: SoldEntry, t: SoldEntry)
    requires e in sold && e !in TopProducts(sold) && t in TopProducts(sold)
    ensures e.quantity <= t.quantity
  {
    var sorted := StableSort.Sort(sold, QuantityKey);
    var top := TopProducts(sold);
    TopIsSortedPrefix(sold);
    var n := |top|;
    assert e in multiset(sorted);
    var j :| 0 <= j < |sorted| && sorted[j] == e;
    var i :| 0 <= i < n && top[i] == t;
    assert sorted[..n] == top;
    assert n <= j;
    StableSort.SortSorted(sold, QuantityKey);
    assert QuantityKey(sorted[i]) >= QuantityKey(sorted[j]);
  }

  /** Entries with equal quantities keep their order in products_sold. */
  lemma TopProductsStable(sold: seq<SoldEntry>, q: real)
    ensures StableSort.Filter(TopProducts(sold), QuantityKey, q) <= StableSort.Filter(sold, QuantityKey, q)
  {
    TopIsSortedPrefix(sold);
    FilterOfPrefix(StableSort.Sort(sold, QuantityKey), |TopProducts(sold)|, QuantityKey, q);
    StableSort.SortStable(sold, QuantityKey, q);
  }

  /** A stat once the annotation pass has added `bonus` and `top_products`. */
  datatype RankedStat = RankedStat(stat: Stat, bonus: real, top_products: seq<SoldEntry>)

  /** The body of the forEach at :107-113 for the seller at `index`. */
  function Annotation(seller: Stat, index: nat, total: nat, calculateBonus: BonusFn): RankedStat {
    RankedStat(seller, calculateBonus(index, total, seller), TopProducts(seller.products_sold))
  }

  /** :107-113: each seller, at its rank in the sorted order, gets its bonus
      from the strategy and its top products. */
  method Annotate(ranked: seq<Stat>, calculateBonus: BonusFn) returns (annotated: seq<RankedStat>)
    ensures |annotated| == |ranked|
    ensures forall i :: 0 <= i < |ranked| ==>
      && annotated[i].stat == ranked[i]
      && annotated[i].bonus == calculateBonus(i, |ranked|, ranked[i])
      && annotated[i].top_products == TopProducts(ranked[i].products_sold)
  {
    annotated := [];
    var index := 0;
    while index < |ranked|
      invariant 0 <= index <= |ranked|
      invariant |annotated| == index
      invariant forall i :: 0 <= i < index ==> annotated[i] == Annotation(ranked[i], i, |ranked|, calculateBonus)
    {
      var seller := ranked[index];
      var bonus := calculateBonus(index, |ranked|, seller);
      var top := TopProducts(seller.products_sold);
      annotated := annotated + [RankedStat(seller, bonus, top)];
      index := index + 1;
    }
  }

  /** :115-123: the output shape, amounts rounded to cents. */
  function Project(s: RankedStat): Report {
    Report(s.stat.id, s.stat.name, Round2(s.stat.revenue), Round2(s.stat.profit),
           s.stat.sales_count, s.top_products, Round2(s.bonus))
  }

  function Projection(annotated: seq<RankedStat>): seq<Report> {
    seq(|annotated|, i requires 0 <= i < |annotated| => Project(annotated[i]))
  }
}
