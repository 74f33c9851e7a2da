/** The "Buy These Together" card: three fixed items (the product shown,
    then two complementary items at 24.99 and 19.99), their total, a 10%
    discount, the bundle price, the "SAVE n%" badge, and the on/off state of
    the bundle button. Prices are exact reals. */
module ProductBundle {

  datatype BundleItem = BundleItem(id: int, name: string, price: real)

  /** What the badge shows: `Math.round` of the percentage, or `NaN` when
      the total is zero (the division is not guarded). */
  datatype Shown = Percent(n: int) | NaN

  const DiscountRate: real := 0.1

  function BundleItems(mainProductPrice: real): seq<BundleItem>
  {
    [ BundleItem(1, "Main Product", mainProductPrice),
      BundleItem(2, "Complementary Item 1", 24.99),
      BundleItem(3, "Complementary Item 2", 19.99) ]
  }

  /** `reduce((sum, item) => sum + item.price, acc)`: a left fold. */
  function SumFrom(acc: real, items: seq<BundleItem>): real
    decreases items
  {
    if items == [] then acc else SumFrom(acc + items[0].price, items[1..])
  }

  function TotalPrice(items: seq<BundleItem>): real
  {
    SumFrom(0.0, items)
  }

  /** The mathematical sum of the prices, as a reference for the fold. */
  ghost function PriceSum(items: seq<BundleItem>): real
  {
    if items == [] then 0.0 else items[0].price + PriceSum(items[1..])
  }

  /** A tenth of the total. */
  function BundleDiscount(total: real): (discount: real)
    ensures discount == total / 10.0
  {
    total * DiscountRate
  }

  /** Nine tenths of the total: with the discount it makes up the total. */
  function BundlePrice(total: real): (price: real)
    ensures price == 0.9 * total
    ensures price + BundleDiscount(total) == total
  {
    total - BundleDiscount(total)
  }

  /** `Math.round`: the nearest integer, halves rounded up. */
  function Round(x: real): (r: int)
    ensures x - 0.5 < r as real <= x + 0.5
  {
    (x + 0.5).Floor
  }

  /** `Math.round((bundleDiscount / totalPrice) * 100)`: undefined exactly
      for a zero total, and 10 whenever the discount is the card's own. */
  function SavePercent(discount: real, total: real): (shown: Shown)
    ensures shown == NaN <==> total == 0.0
    ensures total != 0.0 && discount == BundleDiscount(total) ==> shown == Percent(10)
  {
    if total == 0.0 then NaN
    else
      assert discount == BundleDiscount(total) ==> discount / total == DiscountRate;
      Percent(Round(discount / total * 100.0))
  }

  ghost predicate NonNegativePrices(items: seq<BundleItem>)
  {
    forall i :: 0 <= i < |items| ==> items[i].price >= 0.0
  }

  /** The fold adds the prices to its starting value. */
  lemma {:induction false} FoldIsSum(acc: real, items: seq<BundleItem>)
    ensures SumFrom(acc, items) == acc + PriceSum(items)
    decreases items
  {
    if items != [] {
      FoldIsSum(acc + items[0].price, items[1..]);
    }
  }

  lemma {:induction false} PriceSumNonNegative(items: seq<BundleItem>)
    requires NonNegativePrices(items)
    ensures PriceSum(items) >= 0.0
  {
    if items != [] {
      PriceSumNonNegative(items[1..]);
    }
  }

  /** The bundle is the product shown followed by the two fixed add-ons, and
      its total is the main price plus 44.98. */
  lemma BundleTotal(mainProductPrice: real)
    ensures |BundleItems(mainProductPrice)| == 3
    ensures BundleItems(mainProductPrice)[0].price == mainProductPrice
    ensures BundleItems(mainProductPrice)[1].price == 24.99
    ensures BundleItems(mainProductPrice)[2].price == 19.99
    ensures TotalPrice(BundleItems(mainProductPrice)) == mainProductPrice + 44.98
  {
    var items := BundleItems(mainProductPrice);
    FoldIsSum(0.0, items);
    assert PriceSum(items[2..]) == 19.99 by {
      assert items[2..][1..] == [];
    }
    assert PriceSum(items[1..]) == 24.99 + 19.99 by {
      assert items[1..][1..] == items[2..];
    }
  }

  /** With no negative price the bundle price lies between zero and the
      total, and the discount is not negative. */
  lemma PricesBounded(items: seq<BundleItem>)
    requires NonNegativePrices(items)
    ensures 0.0 <= BundleDiscount(TotalPrice(items))
    ensures 0.0 <= BundlePrice(TotalPrice(items)) <= TotalPrice(items)
  {
    FoldIsSum(0.0, items);
    PriceSumNonNegative(items);
  }

  /** The badge is undefined exactly when the total is zero, which for the
      card's own items happens only at a main price of -44.98; a product
      price that is not negative always shows 10. */
  lemma SavePercentOfBundle(mainProductPrice: real)
    ensures var total := TotalPrice(BundleItems(mainProductPrice));
      SavePercent(BundleDiscount(total), total) == (if mainProductPrice == -44.98 then NaN else Percent(10))
  {
    BundleTotal(mainProductPrice);
  }

  /** The card's only state: whether the bundle is selected (initially yes). */
  class BundleCard {
    var isBundleSelected: bool

    constructor ()
      ensures isBundleSelected
    {
      isBundleSelected := true;
    }

    method ClickBundleButton()
      modifies this
      ensures isBundleSelected == !old(isBundleSelected)
    {
      isBundleSelected := !isBundleSelected;
    }
  }

  /** Two clicks on the bundle button restore the selection. */
  method ClickTwice(card: BundleCard)
    modifies card
    ensures card.isBundleSelected == old(card.isBundleSelected)
  {
    card.ClickBundleButton();
    card.ClickBundleButton();
  }
}
