/** The two default strategies of src/main.js. */
module Strategies {
  import opened SalesTypes

  /** calculateSimpleRevenue: the sale price times the quantity, less the
      discount percentage. The source's second parameter (the product card) is
      never used, and the caller passes only the line item. */
  function CalculateSimpleRevenue(item: LineItem): (revenue: real)
    ensures item.discount == 0.0 ==> revenue == item.sale_price * item.quantity as real
    ensures item.discount == 100.0 ==> revenue == 0.0
    ensures 0.0 <= item.discount <= 100.0 && 0.0 <= item.sale_price && 0 <= item.quantity
            ==> 0.0 <= revenue <= item.sale_price * item.quantity as real
  {
    var discount := 1.0 - item.discount / 100.0;
    var gross := item.sale_price * item.quantity as real;
    assert 0.0 <= item.sale_price && 0 <= item.quantity ==> 0.0 <= gross;
    assert 0.0 <= gross && 0.0 <= discount <= 1.0 ==> 0.0 <= gross * discount <= gross;
    gross * discount
  }

  /** calculateBonusByProfit: a share of the profit chosen by the 0-based rank.
      The tests run in the order 0, then 1 or 2, then the last rank, so the
      "last" rule only ever applies from rank 3 on. */
  function CalculateBonusByProfit(index: nat, total: nat, seller: Stat): (bonus: real)
    ensures index == 0 ==> bonus == seller.profit * 0.15
    ensures 1 <= index <= 2 ==> bonus == seller.profit * 0.10
    ensures 3 <= index && index == total - 1 ==> bonus == 0.0
    ensures 3 <= index && index != total - 1 ==> bonus == seller.profit * 0.05
  {
    if index == 0 then seller.profit * 0.15
    else if index == 1 || index == 2 then seller.profit * 0.10
    else if index == total - 1 then 0.0
    else seller.profit * 0.05
  }

  /** With one, two or three sellers nobody falls under the "last gets
      nothing" rule: the top ranks win. */
  lemma SmallTeamBonus(index: nat, total: nat, seller: Stat)
    requires 1 <= total <= 3 && index < total
    ensures CalculateBonusByProfit(index, total, seller)
            == seller.profit * (if index == 0 then 0.15 else 0.10)
  {
  }

  /** With N > 3 sellers the rates by rank are 15%, 10%, 10%, then 5% up to
      the last rank, which gets 0. */
  lemma LargeTeamBonus(index: nat, total: nat, seller: Stat)
    requires 3 < total && index < total
    ensures CalculateBonusByProfit(index, total, seller)
            == seller.profit * (if index == 0 then 0.15
                                else if index <= 2 then 0.10
                                else if index == total - 1 then 0.0
                                else 0.05)
  {
  }
}
