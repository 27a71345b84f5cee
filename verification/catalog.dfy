/** The static product and promotion catalogs (constants/order.ts). */
module Catalog {
  import opened Wrappers
  import opened Lookup
  import opened OrderTypes

  /** The code reserved for "no discount". */
  const NoneCode: string := "NONE"

  const Products: seq<Product> := [
    Product(1, "Laptop", 1200.0),
    Product(2, "Smartphone", 800.0),
    Product(3, "Headphones", 150.0),
    Product(4, "Monitor", 300.0),
    Product(5, "Keyboard", 80.0)
  ]

  const Promotions: seq<Promotion> := [
    Promotion(1, "SAVE10", Percentage, 10.0, "10% off"),
    Promotion(2, "SAVE20", Percentage, 20.0, "20% off"),
    Promotion(3, "FLAT50", Fixed, 50.0, "$50 off"),
    Promotion(4, "FLAT100", Fixed, 100.0, "$100 off"),
    Promotion(5, NoneCode, NoDiscount, 0.0, "No discount")
  ]

  /** The promotion a line carries when its product is first added: the fifth entry. */
  const DefaultPromotion: Promotion := Promotions[4]

  /** A promotion whose reserved "NONE" code always goes with the `NoDiscount` kind. */
  predicate CodeMatchesKind(p: Promotion) {
    p.code == NoneCode <==> p.kind == NoDiscount
  }

  /** A promotion whose value is a sensible amount: non-negative, and at most 100 as a percentage. */
  predicate ValueInRange(p: Promotion) {
    0.0 <= p.value && (p.kind == Percentage ==> p.value <= 100.0)
  }

  /** Looking a product up by id; only ids 1 to 5 exist, and id `n` is the `n`-th entry. */
  function FindProduct(id: int): (r: Option<Product>)
    ensures r.Some? <==> 1 <= id <= 5
    ensures r.Some? ==> r.value == Products[id - 1] && r.value.id == id
  {
    var hasId := (p: Product) => p.id == id;
    assert forall i :: 0 <= i < |Products| ==> (Products[i].id == i + 1 && (hasId(Products[i]) <==> i + 1 == id));
    assert 1 <= id <= 5 ==> hasId(Products[id - 1]);
    Find(Products, hasId)
  }

  /** Looking a promotion up by id; only ids 1 to 5 exist, and id `n` is the `n`-th entry. */
  function FindPromotion(id: int): (r: Option<Promotion>)
    ensures r.Some? <==> 1 <= id <= 5
    ensures r.Some? ==> r.value == Promotions[id - 1] && r.value.id == id
  {
    var hasId := (p: Promotion) => p.id == id;
    assert forall i :: 0 <= i < |Promotions| ==> (Promotions[i].id == i + 1 && (hasId(Promotions[i]) <==> i + 1 == id));
    assert 1 <= id <= 5 ==> hasId(Promotions[id - 1]);
    Find(Promotions, hasId)
  }

  /** Product ids are pairwise distinct and every catalog price is positive. */
  lemma ProductCatalogWellFormed()
    ensures forall i, j :: 0 <= i < j < |Products| ==> Products[i].id != Products[j].id
    ensures forall i :: 0 <= i < |Products| ==> Products[i].price > 0.0
  {
  }

  /**
   * Promotion ids are pairwise distinct, so a lookup by id finds at most one
   * entry; every catalog promotion pairs the "NONE" code with the `NoDiscount`
   * kind and carries an in-range value.
   */
  lemma PromotionCatalogWellFormed()
    ensures forall i, j :: 0 <= i < j < |Promotions| ==> Promotions[i].id != Promotions[j].id
    ensures forall i :: 0 <= i < |Promotions| ==> CodeMatchesKind(Promotions[i]) && ValueInRange(Promotions[i])
  {
  }

  /** The default promotion is the no-discount entry. */
  lemma DefaultPromotionIsNoDiscount()
    ensures DefaultPromotion.code == NoneCode
    ensures DefaultPromotion.kind == NoDiscount
    ensures DefaultPromotion.value == 0.0
    ensures FindPromotion(DefaultPromotion.id) == Some(DefaultPromotion)
  {
  }
}
