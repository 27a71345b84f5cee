/**
 * Pricing one cart line under its promotion. The repository holds two
 * versions of `calculateItemPrice`: the one in CreateOrderForm.tsx, which the
 * form uses and which first checks for the "NONE" code, and the one in
 * utils/order.ts, which looks only at the promotion kind.
 */
module Pricing {
  import opened OrderTypes
  import opened Catalog

  /** `Math.max` on two amounts. */
  function Max(a: Money, b: Money): (m: Money)
    ensures m >= a && m >= b && (m == a || m == b)
  {
    if a >= b then a else b
  }

  /** The undiscounted cost of a line: unit price times quantity. */
  function Subtotal(item: CartItem): Money {
    item.price * item.quantity as real
  }

  /** The cost of `base` under the promotion's kind alone, ignoring its code. */
  function PriceByKind(base: Money, promo: Promotion): Money {
    match promo.kind
    case Percentage => base * (1.0 - promo.value / 100.0)
    case Fixed => Max(0.0, base - promo.value)
    case NoDiscount => base
  }

  /**
   * The form's pricer. A line whose promotion has the "NONE" code costs its
   * subtotal whatever the kind; otherwise the kind decides. A fixed discount
   * never drives the price below zero; a percentage discount does only when
   * its value exceeds 100; no discount with a non-negative value raises the price.
   */
  function ItemPrice(item: CartItem): (r: Money)
    ensures item.promotion.code == NoneCode ==> r == Subtotal(item)
    ensures item.promotion.kind == NoDiscount ==> r == Subtotal(item)
    ensures item.promotion.kind == Fixed && item.promotion.code != NoneCode ==> 0.0 <= r
    ensures 0.0 <= Subtotal(item) && ValueInRange(item.promotion) ==> 0.0 <= r <= Subtotal(item)
  {
    if item.promotion.code == NoneCode then Subtotal(item)
    else
      PriceByKindBounds(Subtotal(item), item.promotion);
      PriceByKind(Subtotal(item), item.promotion)
  }

  /**
   * The pricer of utils/order.ts: the kind alone decides, so a "NONE"-coded
   * promotion of another kind still discounts. The percentage branch is not
   * clamped at zero.
   */
  function ItemPriceByKind(item: CartItem): (r: Money)
    ensures item.promotion.kind == NoDiscount ==> r == Subtotal(item)
    ensures item.promotion.kind == Fixed ==> 0.0 <= r
    ensures 0.0 <= Subtotal(item) && ValueInRange(item.promotion) ==> 0.0 <= r <= Subtotal(item)
  {
    PriceByKindBounds(Subtotal(item), item.promotion);
    PriceByKind(Subtotal(item), item.promotion)
  }

  /**
   * A fixed discount never goes below zero, and an in-range promotion on a
   * non-negative amount leaves between nothing and all of it.
   */
  lemma {:induction false} PriceByKindBounds(base: Money, promo: Promotion)
    ensures promo.kind == Fixed ==> 0.0 <= PriceByKind(base, promo)
    ensures 0.0 <= base && ValueInRange(promo) ==> 0.0 <= PriceByKind(base, promo) <= base
  {
  }

  /** A percentage line costs subtotal times (1 - value/100) under both pricers unless coded "NONE". */
  lemma {:induction false} PercentageLinePrice(item: CartItem)
    requires item.promotion.kind == Percentage
    ensures ItemPriceByKind(item) == Subtotal(item) * (1.0 - item.promotion.value / 100.0)
    ensures item.promotion.code != NoneCode ==> ItemPrice(item) == ItemPriceByKind(item)
  {
  }

  /**
   * A fixed line costs max(0, subtotal - value) under both pricers unless coded
   * "NONE"; with a non-negative value it lies between 0 and the subtotal.
   */
  lemma {:induction false} FixedLinePrice(item: CartItem)
    requires item.promotion.kind == Fixed
    ensures ItemPriceByKind(item) == Max(0.0, Subtotal(item) - item.promotion.value)
    ensures item.promotion.code != NoneCode ==> ItemPrice(item) == ItemPriceByKind(item)
    ensures 0.0 <= item.promotion.value && 0.0 <= Subtotal(item) ==> 0.0 <= ItemPriceByKind(item) <= Subtotal(item)
  {
  }

  /**
   * The percentage branch has no clamp: a percentage above 100 on a positive
   * subtotal yields a negative price, under both pricers unless coded "NONE".
   */
  lemma {:induction false} PercentageAboveHundredIsNegative(item: CartItem)
    requires item.promotion.kind == Percentage && item.promotion.value > 100.0
    requires Subtotal(item) > 0.0
    ensures ItemPriceByKind(item) < 0.0
    ensures item.promotion.code != NoneCode ==> ItemPrice(item) < 0.0
  {
    var f := 1.0 - item.promotion.value / 100.0;
    assert f < 0.0;
    assert Subtotal(item) * f < 0.0;
    assert ItemPriceByKind(item) == Subtotal(item) * f;
  }

  /**
   * The two pricers disagree exactly on a "NONE"-coded promotion whose kind
   * would change the subtotal.
   */
  lemma {:induction false} PricersDisagreeExactly(item: CartItem)
    ensures ItemPrice(item) != ItemPriceByKind(item)
        <==> item.promotion.code == NoneCode && ItemPriceByKind(item) != Subtotal(item)
  {
  }

  /** Whenever the "NONE" code implies the `NoDiscount` kind, the two pricers agree. */
  lemma {:induction false} PricersAgree(item: CartItem)
    requires item.promotion.code == NoneCode ==> item.promotion.kind == NoDiscount
    ensures ItemPrice(item) == ItemPriceByKind(item)
  {
  }

  /** A concrete disagreement: 10% off coded "NONE" on one item at 100. */
  lemma PricersDisagreeOnMiscodedPromotion()
    ensures var item := CartItem(1, "Laptop", 100.0, 1, Promotion(9, NoneCode, Percentage, 10.0, "10% off"));
            ItemPrice(item) == 100.0 && ItemPriceByKind(item) == 90.0
  {
  }

  /**
   * Under any catalog promotion the two pricers agree, and a line with a
   * non-negative price and quantity costs between zero and its subtotal.
   */
  lemma {:induction false} CatalogPricing(item: CartItem)
    requires item.promotion in Promotions
    requires 0.0 <= item.price && 0 <= item.quantity
    ensures ItemPrice(item) == ItemPriceByKind(item)
    ensures 0.0 <= ItemPrice(item) <= Subtotal(item)
  {
  }

  /** Laptop at 1200 with SAVE10 costs 1080; two Headphones at 150 with NONE cost 300; Monitor at 300 with FLAT100 costs 200. */
  lemma CatalogExamples()
    ensures ItemPrice(CartItem(1, "Laptop", 1200.0, 1, Promotions[0])) == 1080.0
    ensures ItemPrice(CartItem(3, "Headphones", 150.0, 2, Promotions[4])) == 300.0
    ensures ItemPrice(CartItem(4, "Monitor", 300.0, 1, Promotions[3])) == 200.0
  {
  }

  /** A fixed discount larger than the subtotal prices the line at zero. */
  lemma FixedDiscountBeyondSubtotal()
    ensures ItemPrice(CartItem(4, "Monitor", 300.0, 1, Promotion(6, "FLAT500", Fixed, 500.0, "$500 off"))) == 0.0
  {
  }
}
