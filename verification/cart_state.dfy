/**
 * The cart held by the order form (CreateOrderForm.tsx): its totals and the
 * five transformations the form applies to it. Each transformation is the
 * new cart the form would store.
 */
module CartState {
  import opened Wrappers
  import opened Lookup
  import opened OrderTypes
  import opened Catalog
  import opened Pricing

  /** Some line of the cart belongs to product `id`. */
  predicate HasLine(cart: Cart, id: int) {
    exists i :: 0 <= i < |cart| && cart[i].id == id
  }

  /** No two lines belong to the same product. */
  predicate UniqueIds(cart: Cart) {
    forall i, j :: 0 <= i < j < |cart| ==> cart[i].id != cart[j].id
  }

  /** Every line has at least one unit. */
  predicate QuantitiesPositive(cart: Cart) {
    forall i :: 0 <= i < |cart| ==> cart[i].quantity >= 1
  }

  /** Every line carries a catalog promotion and a non-negative unit price. */
  predicate LinesPriced(cart: Cart) {
    forall i :: 0 <= i < |cart| ==> cart[i].promotion in Promotions && 0.0 <= cart[i].price
  }

  /** The invariant the transformations keep. */
  predicate Valid(cart: Cart) {
    UniqueIds(cart) && QuantitiesPositive(cart) && LinesPriced(cart)
  }

  /** The line of product `id`, as `cart.find` returns it. */
  function FindLine(cart: Cart, id: int): (r: Option<CartItem>)
    ensures r.Some? <==> HasLine(cart, id)
    ensures r.Some? ==> r.value in cart && r.value.id == id
  {
    Find(cart, (item: CartItem) => item.id == id)
  }

  // ---------------------------------------------------------------------------
  // Totals
  // ---------------------------------------------------------------------------

  /** The order total: the sum of every line's price. */
  function Total(cart: Cart): Money {
    if |cart| == 0 then 0.0 else ItemPrice(cart[0]) + Total(cart[1..])
  }

  /** The number of units in the cart: the sum of the line quantities. */
  function TotalItems(cart: Cart): int {
    if |cart| == 0 then 0 else cart[0].quantity + TotalItems(cart[1..])
  }

  /** The total of two carts laid end to end is the sum of their totals. */
  lemma {:induction false} TotalConcat(a: Cart, b: Cart)
    ensures Total(a + b) == Total(a) + Total(b)
    decreases |a|
  {
    if |a| == 0 {
      assert a + b == b;
    } else {
      assert (a + b)[1..] == a[1..] + b;
      TotalConcat(a[1..], b);
    }
  }

  /** The unit count of two carts laid end to end is the sum of their counts. */
  lemma {:induction false} TotalItemsConcat(a: Cart, b: Cart)
    ensures TotalItems(a + b) == TotalItems(a) + TotalItems(b)
    decreases |a|
  {
    if |a| == 0 {
      assert a + b == b;
    } else {
      assert (a + b)[1..] == a[1..] + b;
      TotalItemsConcat(a[1..], b);
    }
  }

  /** Folding from the left, as `reduce` does, adds the last line to the total of the rest. */
  lemma {:induction false} TotalAppend(cart: Cart, item: CartItem)
    ensures Total(cart + [item]) == Total(cart) + ItemPrice(item)
  {
    TotalConcat(cart, [item]);
  }

  /** The total and unit count split around the line at index `k`. */
  lemma {:induction false} TotalSplit(cart: Cart, k: int)
    requires 0 <= k < |cart|
    ensures Total(cart) == Total(cart[..k]) + ItemPrice(cart[k]) + Total(cart[k + 1..])
    ensures TotalItems(cart) == TotalItems(cart[..k]) + cart[k].quantity + TotalItems(cart[k + 1..])
  {
    assert cart == cart[..k] + ([cart[k]] + cart[k + 1..]);
    TotalConcat(cart[..k], [cart[k]] + cart[k + 1..]);
    TotalItemsConcat(cart[..k], [cart[k]] + cart[k + 1..]);
    assert ([cart[k]] + cart[k + 1..])[1..] == cart[k + 1..];
  }

  /** Replacing one line changes the total by the difference of the two line prices. */
  lemma {:induction false} TotalReplace(cart: Cart, k: int, item: CartItem)
    requires 0 <= k < |cart|
    ensures Total(cart[k := item]) == Total(cart) - ItemPrice(cart[k]) + ItemPrice(item)
    ensures TotalItems(cart[k := item]) == TotalItems(cart) - cart[k].quantity + item.quantity
  {
    var r := cart[k := item];
    assert r[..k] == cart[..k] && r[k + 1..] == cart[k + 1..];
    TotalSplit(cart, k);
    TotalSplit(r, k);
  }

  /**
   * Taking the first line off `a` and the matching line at index `k` off `b`
   * keeps two equal multisets equal.
   */
  lemma {:induction false} MultisetRemoveMatching(a: Cart, b: Cart, k: int)
    requires multiset(a) == multiset(b) && |a| > 0 && 0 <= k < |b| && b[k] == a[0]
    ensures multiset(a[1..]) == multiset(b[..k] + b[k + 1..])
  {
    assert a == [a[0]] + a[1..];
    assert b == b[..k] + [b[k]] + b[k + 1..];
    assert multiset(a[1..]) == multiset(a) - multiset([a[0]]);
    assert multiset(b[..k] + b[k + 1..]) == multiset(b) - multiset([b[k]]);
  }

  /** The total does not depend on the order of the lines. */
  lemma {:induction false} TotalPermutation(a: Cart, b: Cart)
    requires multiset(a) == multiset(b)
    ensures Total(a) == Total(b)
    decreases |a|
  {
    if |a| == 0 {
      assert |b| == |multiset(b)| == 0;
    } else {
      assert a[0] in multiset(b);
      var k :| 0 <= k < |b| && b[k] == a[0];
      var rest := b[..k] + b[k + 1..];
      MultisetRemoveMatching(a, b, k);
      TotalPermutation(a[1..], rest);
      TotalSplit(b, k);
      TotalConcat(b[..k], b[k + 1..]);
    }
  }

  /**
   * A cart whose lines carry catalog promotions and non-negative prices and
   * quantities has a non-negative total.
   */
  lemma {:induction false} TotalNonNegative(cart: Cart)
    requires forall i :: 0 <= i < |cart| ==> cart[i].promotion in Promotions && 0.0 <= cart[i].price && 0 <= cart[i].quantity
    ensures 0.0 <= Total(cart)
    decreases |cart|
  {
    if |cart| > 0 {
      CatalogPricing(cart[0]);
      TotalNonNegative(cart[1..]);
    }
  }

  /** Every line holds at least one unit, so the unit count is at least the line count. */
  lemma {:induction false} TotalItemsAtLeastLines(cart: Cart)
    requires QuantitiesPositive(cart)
    ensures TotalItems(cart) >= |cart|
    ensures |cart| == 0 <==> TotalItems(cart) == 0
    decreases |cart|
  {
    if |cart| > 0 {
      TotalItemsAtLeastLines(cart[1..]);
    }
  }

  /** `totalAmount`: the cart folded from the left with `calculateItemPrice`, starting at 0. */
  method TotalAmount(cart: Cart) returns (total: Money)
    ensures total == Total(cart)
  {
    total := 0.0;
    var i := 0;
    while i < |cart|
      invariant 0 <= i <= |cart|
      invariant total == Total(cart[..i])
    {
      TotalAppend(cart[..i], cart[i]);
      assert cart[..i + 1] == cart[..i] + [cart[i]];
      total := total + ItemPrice(cart[i]);
      i := i + 1;
    }
    assert cart[..i] == cart;
  }

  // ---------------------------------------------------------------------------
  // Transformations
  // ---------------------------------------------------------------------------

  /** The cart with every line of product `id` replaced by `f` of it, the others kept. */
  function MapLine(cart: Cart, id: int, f: CartItem -> CartItem): (r: Cart)
    ensures |r| == |cart|
    ensures forall i :: 0 <= i < |cart| ==> r[i] == (if cart[i].id == id then f(cart[i]) else cart[i])
  {
    seq(|cart|, i requires 0 <= i < |cart| => if cart[i].id == id then f(cart[i]) else cart[i])
  }

  /**
   * In a cart with unique ids, a cart that differs from it only at the line
   * of `cart[k].id`, where it holds `item`, is the cart with index `k` replaced.
   */
  lemma {:induction false} ReplaceAtUniqueLine(cart: Cart, r: Cart, k: int, item: CartItem)
    requires UniqueIds(cart) && 0 <= k < |cart| && |r| == |cart|
    requires forall i :: 0 <= i < |cart| && cart[i].id != cart[k].id ==> r[i] == cart[i]
    requires r[k] == item
    ensures r == cart[k := item]
  {
  }

  /** A cart with the same ids line by line has unique ids when the original does. */
  lemma {:induction false} SameIdsKeepUnique(cart: Cart, r: Cart)
    requires |r| == |cart| && forall i :: 0 <= i < |cart| ==> r[i].id == cart[i].id
    ensures UniqueIds(cart) ==> UniqueIds(r)
  {
  }

  /**
   * Appending a line whose id is not yet in the cart, with at least one unit,
   * a catalog promotion and a non-negative price, keeps the cart valid and
   * leaves the earlier lines in place.
   */
  lemma {:induction false} AppendNewKeepsValid(cart: Cart, item: CartItem)
    requires !HasLine(cart, item.id)
    requires item.quantity >= 1 && item.promotion in Promotions && 0.0 <= item.price
    ensures (cart + [item])[..|cart|] == cart
    ensures UniqueIds(cart) ==> UniqueIds(cart + [item])
    ensures QuantitiesPositive(cart) ==> QuantitiesPositive(cart + [item])
    ensures LinesPriced(cart) ==> LinesPriced(cart + [item])
  {
    var r := cart + [item];
    assert r[..|cart|] == cart;
    if UniqueIds(cart) {
      forall i, j | 0 <= i < j < |r| ensures r[i].id != r[j].id {
        assert r[i] == cart[i];
        if j == |cart| {
          assert r[j] == item;
        } else {
          assert r[j] == cart[j];
        }
      }
    }
  }

  /** One more unit on every line of product `id`, every other line kept. */
  function IncrementLine(cart: Cart, id: int): (r: Cart)
    ensures |r| == |cart|
    ensures forall i :: 0 <= i < |cart| && cart[i].id != id ==> r[i] == cart[i]
    ensures forall i :: 0 <= i < |cart| && cart[i].id == id ==> r[i] == cart[i].(quantity := cart[i].quantity + 1)
    ensures UniqueIds(cart) ==> UniqueIds(r)
    ensures QuantitiesPositive(cart) ==> QuantitiesPositive(r)
    ensures LinesPriced(cart) ==> LinesPriced(r)
  {
    var r := MapLine(cart, id, (item: CartItem) => item.(quantity := item.quantity + 1));
    assert forall i :: 0 <= i < |cart| ==> r[i].id == cart[i].id;
    SameIdsKeepUnique(cart, r);
    r
  }

  /** The line a product becomes when first added: one unit, no discount. */
  function NewLine(p: Product): CartItem {
    CartItem(p.id, p.name, p.price, 1, DefaultPromotion)
  }

  /**
   * `addToCart`: an id outside the catalog changes nothing; a product already
   * in the cart gets one more unit and nothing else changes; a new product is
   * appended as one unit at its catalog price with the default promotion.
   */
  function AddToCart(cart: Cart, productId: int): (r: Cart)
    ensures FindProduct(productId).None? ==> r == cart
    ensures FindProduct(productId).Some? && HasLine(cart, productId) ==>
      && |r| == |cart|
      && (forall i :: 0 <= i < |cart| && cart[i].id != productId ==> r[i] == cart[i])
      && (forall i :: 0 <= i < |cart| && cart[i].id == productId ==> r[i] == cart[i].(quantity := cart[i].quantity + 1))
    ensures FindProduct(productId).Some? && !HasLine(cart, productId) ==>
      && |r| == |cart| + 1
      && r[..|cart|] == cart
      && r[|cart|].id == productId
      && r[|cart|].name == FindProduct(productId).value.name
      && r[|cart|].price == FindProduct(productId).value.price
      && r[|cart|].quantity == 1
      && r[|cart|].promotion == DefaultPromotion
    ensures UniqueIds(cart) ==> UniqueIds(r)
    ensures QuantitiesPositive(cart) ==> QuantitiesPositive(r)
    ensures LinesPriced(cart) ==> LinesPriced(r)
  {
    match FindProduct(productId)
    case None => cart
    case Some(product) =>
      if FindLine(cart, productId).Some? then
        IncrementLine(cart, productId)
      else
        ProductCatalogWellFormed();
        assert product.price > 0.0 && DefaultPromotion in Promotions;
        AppendNewKeepsValid(cart, NewLine(product));
        cart + [NewLine(product)]
  }

  /** The lines of `cart` that do not belong to product `id`, in their original order. */
  function Without(cart: Cart, id: int): (r: Cart)
    ensures forall x :: x in r <==> x in cart && x.id != id
    ensures |r| <= |cart|
  {
    if |cart| == 0 then []
    else if cart[0].id == id then Without(cart[1..], id)
    else [cart[0]] + Without(cart[1..], id)
  }

  /**
   * `removeFromCart`: drops the line of product `id`, keeps every other line,
   * and leaves the cart as it was when no line has that id.
   */
  function RemoveFromCart(cart: Cart, id: int): (r: Cart)
    ensures !HasLine(cart, id) ==> r == cart
    ensures !HasLine(r, id)
    ensures forall x :: x in r <==> x in cart && x.id != id
    ensures UniqueIds(cart) ==> UniqueIds(r)
    ensures QuantitiesPositive(cart) ==> QuantitiesPositive(r)
    ensures LinesPriced(cart) ==> LinesPriced(r)
  {
    if FindLine(cart, id).Some? then
      WithoutKeepsUnique(cart, id);
      Without(cart, id)
    else
      cart
  }

  /** Filtering a cart with unique ids keeps the ids unique. */
  lemma {:induction false} WithoutKeepsUnique(cart: Cart, id: int)
    ensures UniqueIds(cart) ==> UniqueIds(Without(cart, id))
    decreases |cart|
  {
    if |cart| > 0 && UniqueIds(cart) {
      WithoutKeepsUnique(cart[1..], id);
      var rest := Without(cart[1..], id);
      if cart[0].id != id {
        forall x | x in rest
          ensures x.id != cart[0].id
        {
          var j :| 0 <= j < |cart[1..]| && cart[1..][j] == x;
          assert cart[j + 1] == x;
        }
        var r := [cart[0]] + rest;
        forall i, j | 0 <= i < j < |r|
          ensures r[i].id != r[j].id
        {
          if i == 0 {
            assert r[j] == rest[j - 1] && rest[j - 1] in rest;
          } else {
            assert r[i] == rest[i - 1] && r[j] == rest[j - 1];
          }
        }
      }
    }
  }

  /** Filtering distributes over concatenation. */
  lemma {:induction false} WithoutConcat(a: Cart, b: Cart, id: int)
    ensures Without(a + b, id) == Without(a, id) + Without(b, id)
    decreases |a|
  {
    if |a| == 0 {
      assert a + b == b;
    } else {
      assert (a + b)[1..] == a[1..] + b;
      WithoutConcat(a[1..], b, id);
    }
  }

  /** Filtering a cart with no line of `id` changes nothing. */
  lemma {:induction false} WithoutAbsent(cart: Cart, id: int)
    requires !HasLine(cart, id)
    ensures Without(cart, id) == cart
    decreases |cart|
  {
    if |cart| > 0 {
      assert !HasLine(cart[1..], id) by {
        forall i | 0 <= i < |cart[1..]|
          ensures cart[1..][i].id != id
        {
          assert cart[1..][i] == cart[i + 1];
        }
      }
      WithoutAbsent(cart[1..], id);
      assert cart == [cart[0]] + cart[1..];
    }
  }

  /** With unique ids, no line other than the one at index `k` has its id. */
  lemma {:induction false} OnlyLineWithId(cart: Cart, k: int)
    requires UniqueIds(cart) && 0 <= k < |cart|
    ensures !HasLine(cart[..k], cart[k].id) && !HasLine(cart[k + 1..], cart[k].id)
  {
  }

  /** With unique ids, filtering out the id at index `k` removes exactly that line. */
  lemma {:induction false} WithoutAt(cart: Cart, k: int)
    requires UniqueIds(cart) && 0 <= k < |cart|
    ensures Without(cart, cart[k].id) == cart[..k] + cart[k + 1..]
  {
    var id := cart[k].id;
    var pre, post := cart[..k], cart[k + 1..];
    assert cart == pre + ([cart[k]] + post);
    OnlyLineWithId(cart, k);
    WithoutConcat(pre, [cart[k]] + post, id);
    assert ([cart[k]] + post)[1..] == post;
    assert Without([cart[k]] + post, id) == Without(post, id);
    WithoutAbsent(pre, id);
    WithoutAbsent(post, id);
  }

  /**
   * With unique ids, removing the line at index `k` leaves exactly the lines
   * before it followed by the lines after it, in their original order.
   */
  lemma {:induction false} RemoveFromCartAt(cart: Cart, k: int)
    requires UniqueIds(cart) && 0 <= k < |cart|
    ensures RemoveFromCart(cart, cart[k].id) == cart[..k] + cart[k + 1..]
  {
    assert HasLine(cart, cart[k].id);
    WithoutAt(cart, k);
  }

  /**
   * With unique ids, removing the line at index `k` lowers the total by that
   * line's price and the unit count by its quantity.
   */
  lemma {:induction false} RemoveFromCartTotal(cart: Cart, k: int)
    requires UniqueIds(cart) && 0 <= k < |cart|
    ensures Total(RemoveFromCart(cart, cart[k].id)) == Total(cart) - ItemPrice(cart[k])
    ensures TotalItems(RemoveFromCart(cart, cart[k].id)) == TotalItems(cart) - cart[k].quantity
  {
    RemoveFromCartAt(cart, k);
    TotalSplit(cart, k);
    TotalConcat(cart[..k], cart[k + 1..]);
    TotalItemsConcat(cart[..k], cart[k + 1..]);
  }

  /**
   * `updateQuantity`: a quantity of zero or less is ignored; otherwise only
   * the quantity of the line of `id` changes.
   */
  function UpdateQuantity(cart: Cart, id: int, quantity: int): (r: Cart)
    ensures quantity <= 0 ==> r == cart
    ensures |r| == |cart|
    ensures forall i :: 0 <= i < |cart| ==>
      && r[i] == cart[i].(quantity := r[i].quantity)
      && r[i].quantity == (if cart[i].id == id && quantity > 0 then quantity else cart[i].quantity)
    ensures UniqueIds(cart) ==> UniqueIds(r)
    ensures QuantitiesPositive(cart) ==> QuantitiesPositive(r)
    ensures LinesPriced(cart) ==> LinesPriced(r)
  {
    if quantity > 0 then MapLine(cart, id, (item: CartItem) => item.(quantity := quantity))
    else cart
  }

  /**
   * `updatePrice`: a price of zero or less is ignored; otherwise only the
   * unit price of the line of `id` changes.
   */
  function UpdatePrice(cart: Cart, id: int, price: Money): (r: Cart)
    ensures price <= 0.0 ==> r == cart
    ensures |r| == |cart|
    ensures forall i :: 0 <= i < |cart| ==>
      && r[i] == cart[i].(price := r[i].price)
      && r[i].price == (if cart[i].id == id && price > 0.0 then price else cart[i].price)
    ensures UniqueIds(cart) ==> UniqueIds(r)
    ensures QuantitiesPositive(cart) ==> QuantitiesPositive(r)
    ensures LinesPriced(cart) ==> LinesPriced(r)
  {
    if price > 0.0 then MapLine(cart, id, (item: CartItem) => item.(price := price))
    else cart
  }

  /**
   * `updatePromotion`: a promotion id outside the catalog is ignored;
   * otherwise only the promotion of the line of `id` changes, to that
   * catalog entry.
   */
  function UpdatePromotion(cart: Cart, id: int, promotionId: int): (r: Cart)
    ensures FindPromotion(promotionId).None? ==> r == cart
    ensures |r| == |cart|
    ensures forall i :: 0 <= i < |cart| ==>
      && r[i] == cart[i].(promotion := r[i].promotion)
      && r[i].promotion == (if cart[i].id == id && FindPromotion(promotionId).Some?
                            then Promotions[promotionId - 1] else cart[i].promotion)
    ensures UniqueIds(cart) ==> UniqueIds(r)
    ensures QuantitiesPositive(cart) ==> QuantitiesPositive(r)
    ensures LinesPriced(cart) ==> LinesPriced(r)
  {
    match FindPromotion(promotionId)
    case Some(promotion) => MapLine(cart, id, (item: CartItem) => item.(promotion := promotion))
    case None => cart
  }

  /**
   * Each transformation keeps the cart valid: ids stay unique and every
   * line keeps at least one unit.
   */
  lemma {:induction false} TransformationsKeepValid(cart: Cart, id: int, quantity: int, price: Money, promotionId: int)
    requires Valid(cart)
    ensures Valid(AddToCart(cart, id))
    ensures Valid(RemoveFromCart(cart, id))
    ensures Valid(UpdateQuantity(cart, id, quantity))
    ensures Valid(UpdatePrice(cart, id, price))
    ensures Valid(UpdatePromotion(cart, id, promotionId))
  {
  }

  /**
   * A valid cart has a non-negative total. The empty cart is valid and every
   * transformation keeps validity, so every cart the form builds totals at
   * least zero.
   */
  lemma {:induction false} ValidCartTotalNonNegative(cart: Cart)
    requires Valid(cart)
    ensures 0.0 <= Total(cart)
    ensures Valid([])
  {
    TotalNonNegative(cart);
  }

  /** Adding a product not yet in the cart raises the total by its catalog price. */
  lemma {:induction false} AddNewProductTotal(cart: Cart, productId: int)
    requires FindProduct(productId).Some? && !HasLine(cart, productId)
    ensures Total(AddToCart(cart, productId)) == Total(cart) + FindProduct(productId).value.price
    ensures TotalItems(AddToCart(cart, productId)) == TotalItems(cart) + 1
  {
    var r := AddToCart(cart, productId);
    assert r == cart + [r[|cart|]];
    TotalAppend(cart, r[|cart|]);
    TotalItemsConcat(cart, [r[|cart|]]);
    DefaultPromotionIsNoDiscount();
  }

  /**
   * Adding a product already in a cart with unique ids changes the total by
   * the price difference of that one line and raises the unit count by one.
   */
  lemma {:induction false} AddExistingProductTotal(cart: Cart, k: int)
    requires UniqueIds(cart) && 0 <= k < |cart| && FindProduct(cart[k].id).Some?
    ensures var line := cart[k];
      && Total(AddToCart(cart, line.id)) == Total(cart) - ItemPrice(line) + ItemPrice(line.(quantity := line.quantity + 1))
      && TotalItems(AddToCart(cart, line.id)) == TotalItems(cart) + 1
  {
    var line := cart[k];
    var r := AddToCart(cart, line.id);
    assert HasLine(cart, line.id);
    assert |r| == |cart|;
    assert forall i :: 0 <= i < |cart| && cart[i].id != line.id ==> r[i] == cart[i];
    assert r[k] == line.(quantity := line.quantity + 1);
    ReplaceAtUniqueLine(cart, r, k, line.(quantity := line.quantity + 1));
    TotalReplace(cart, k, line.(quantity := line.quantity + 1));
  }

  /**
   * Changing the quantity of the line at index `k` of a cart with unique ids
   * changes the total by that line's price difference and nothing more.
   */
  lemma {:induction false} UpdateQuantityTotal(cart: Cart, k: int, quantity: int)
    requires UniqueIds(cart) && 0 <= k < |cart| && quantity > 0
    ensures var line := cart[k];
      && Total(UpdateQuantity(cart, line.id, quantity)) == Total(cart) - ItemPrice(line) + ItemPrice(line.(quantity := quantity))
      && TotalItems(UpdateQuantity(cart, line.id, quantity)) == TotalItems(cart) - line.quantity + quantity
  {
    var line := cart[k];
    ReplaceAtUniqueLine(cart, UpdateQuantity(cart, line.id, quantity), k, line.(quantity := quantity));
    TotalReplace(cart, k, line.(quantity := quantity));
  }

  /** Changing one line's promotion changes the total by that line's price difference. */
  lemma {:induction false} UpdatePromotionTotal(cart: Cart, k: int, promotionId: int)
    requires UniqueIds(cart) && 0 <= k < |cart| && 1 <= promotionId <= 5
    ensures var line := cart[k];
      Total(UpdatePromotion(cart, line.id, promotionId))
        == Total(cart) - ItemPrice(line) + ItemPrice(line.(promotion := Promotions[promotionId - 1]))
  {
    var line := cart[k];
    ReplaceAtUniqueLine(cart, UpdatePromotion(cart, line.id, promotionId), k, line.(promotion := Promotions[promotionId - 1]));
    TotalReplace(cart, k, line.(promotion := Promotions[promotionId - 1]));
  }

  /** Changing one line's price changes the total by that line's price difference. */
  lemma {:induction false} UpdatePriceTotal(cart: Cart, k: int, price: Money)
    requires UniqueIds(cart) && 0 <= k < |cart| && price > 0.0
    ensures var line := cart[k];
      Total(UpdatePrice(cart, line.id, price)) == Total(cart) - ItemPrice(line) + ItemPrice(line.(price := price))
  {
    var line := cart[k];
    ReplaceAtUniqueLine(cart, UpdatePrice(cart, line.id, price), k, line.(price := price));
    TotalReplace(cart, k, line.(price := price));
  }
}
