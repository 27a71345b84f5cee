/**
 * Settlement, the checkout gate and order submission: the values the order
 * form derives from the cart total and the payment fields
 * (CreateOrderForm.tsx), and the checkout button and notices of the order
 * summary (OrderSummary.tsx).
 */
module Checkout {
  import opened Wrappers
  import opened OrderTypes
  import opened Catalog
  import opened Pricing
  import opened CartState

  const EmptyCartMessage: string := "Please add at least one product to cart"
  const InsufficientCashMessage: string := "Cash amount is insufficient for payment"

  /** The whole state the form keeps: its fields and its cart. */
  datatype OrderForm = OrderForm(data: OrderFormData, cart: Cart)

  /** Why a submission is refused. */
  datatype SubmitError = InsufficientCash

  /** What the summary shows under cash payment: the change due or the amount still missing. */
  datatype CashNotice = ChangeDue(amount: Money) | Shortfall(amount: Money)

  /** The form's fields before anything is entered, and after a reset. */
  const DefaultFormData: OrderFormData := OrderFormData("", "", "", Cash, Some(0.0))

  /**
   * The cash amount the form works with: an unset amount counts as zero, so
   * the form reads zero exactly for an unset amount and for an amount of zero.
   */
  function CashOrZero(cash: Option<Money>): (r: Money)
    ensures r == 0.0 <==> cash.None? || cash == Some(0.0)
    ensures r != 0.0 ==> cash == Some(r)
  {
    match cash
    case Some(v) => v
    case None => 0.0
  }

  /** `changeAmount`: what the cash tendered exceeds the total by; zero for any other payment. */
  function ChangeAmount(payment: PaymentMethod, cash: Money, total: Money): (r: Money)
    ensures IsCashSufficient(payment, cash, total) <==> r >= 0.0
    ensures payment == Card ==> r == 0.0
    ensures payment == Cash ==> cash == total + r
  {
    if payment == Cash then cash - total else 0.0
  }

  /** `isCashSufficient`: card payment always suffices; cash suffices when it covers the total. */
  predicate IsCashSufficient(payment: PaymentMethod, cash: Money, total: Money) {
    payment != Cash || cash >= total
  }

  /**
   * Payment suffices exactly when the change is not negative; in particular
   * sufficient cash never leaves negative change, and card payment always
   * suffices with zero change.
   */
  lemma {:induction false} SufficientIffChangeNonNegative(payment: PaymentMethod, cash: Money, total: Money)
    ensures IsCashSufficient(payment, cash, total) <==> ChangeAmount(payment, cash, total) >= 0.0
    ensures payment == Card ==> IsCashSufficient(payment, cash, total) && ChangeAmount(payment, cash, total) == 0.0
    ensures payment == Cash ==> (IsCashSufficient(payment, cash, total) <==> cash >= total)
  {
  }

  /** An unset cash amount is insufficient exactly when the total is positive. */
  lemma {:induction false} UnsetCashAgainstTotal(total: Money)
    ensures IsCashSufficient(Cash, CashOrZero(None), total) <==> total <= 0.0
    ensures ChangeAmount(Cash, CashOrZero(None), total) == -total
  {
  }

  /** `isCheckoutDisabled`: the button is off for an empty cart or insufficient payment. */
  predicate IsCheckoutDisabled(cart: Cart, cashSufficient: bool) {
    |cart| == 0 || !cashSufficient
  }

  /**
   * `getTooltipMessage`: an empty cart is reported first, whatever the
   * payment; then insufficient cash under cash payment; otherwise nothing.
   */
  function TooltipMessage(cart: Cart, payment: PaymentMethod, cashSufficient: bool): (r: string)
    ensures |cart| == 0 ==> r == EmptyCartMessage
    ensures |cart| > 0 && !cashSufficient && payment == Cash ==> r == InsufficientCashMessage
    ensures r == "" <==> |cart| > 0 && (cashSufficient || payment != Cash)
  {
    if |cart| == 0 then EmptyCartMessage
    else if !cashSufficient && payment == Cash then InsufficientCashMessage
    else ""
  }

  /**
   * With the sufficiency the form computes, the tooltip is empty exactly when
   * checkout is enabled, and names the reason whenever it is disabled.
   */
  lemma {:induction false} TooltipEmptyIffCheckoutEnabled(cart: Cart, payment: PaymentMethod, cash: Money, total: Money)
    ensures var sufficient := IsCashSufficient(payment, cash, total);
      && (TooltipMessage(cart, payment, sufficient) == "" <==> !IsCheckoutDisabled(cart, sufficient))
      && (IsCheckoutDisabled(cart, sufficient) <==> |cart| == 0 || (payment == Cash && cash < total))
  {
  }

  /**
   * The summary alone relies on that: handed a "not sufficient" flag under
   * card payment, it disables checkout but shows no reason.
   */
  lemma {:induction false} TooltipNeedsFormSufficiency(cart: Cart)
    requires |cart| > 0
    ensures IsCheckoutDisabled(cart, false) && TooltipMessage(cart, Card, false) == ""
  {
  }

  /**
   * The cash notice of the summary: nothing under card payment; under cash
   * payment the change when the cash covers the total, otherwise the
   * shortfall, which is always positive.
   */
  function CashNoticeFor(payment: PaymentMethod, cash: Money, total: Money, change: Money): (r: Option<CashNotice>)
    ensures payment == Card <==> r.None?
    ensures r.Some? ==> (r.value.ChangeDue? <==> cash >= total)
    ensures r.Some? && r.value.Shortfall? ==> r.value.amount > 0.0 && cash + r.value.amount == total
  {
    match payment
    case Cash => if cash >= total then Some(ChangeDue(change)) else Some(Shortfall(total - cash))
    case Card => None
  }

  /**
   * With the change the form computes, a change notice never shows a negative
   * amount, and cash plus change gives back the total.
   */
  lemma {:induction false} ChangeNoticeIsNonNegative(payment: PaymentMethod, cash: Money, total: Money)
    ensures var r := CashNoticeFor(payment, cash, total, ChangeAmount(payment, cash, total));
      r.Some? && r.value.ChangeDue? ==> r.value.amount >= 0.0 && total + r.value.amount == cash
  {
  }

  /**
   * `onSubmit`: refused exactly when paying cash that does not cover the
   * total; otherwise the snapshot carries the fields, the cart, its total and
   * a change that is never negative (zero unless paying cash). An empty cart
   * is not refused here.
   */
  function OnSubmit(form: OrderForm): (r: Result<OrderDetails, SubmitError>)
    ensures r.Err? <==> form.data.paymentMethod == Cash && CashOrZero(form.data.cashAmount) < Total(form.cart)
    ensures r.Ok? ==> r.value.form == form.data && r.value.cart == form.cart && r.value.totalAmount == Total(form.cart)
    ensures r.Ok? ==> r.value.changeAmount >= 0.0
    ensures r.Ok? && form.data.paymentMethod == Card ==> r.value.changeAmount == 0.0
    ensures r.Ok? && form.data.paymentMethod == Cash ==> CashOrZero(form.data.cashAmount) == r.value.totalAmount + r.value.changeAmount
  {
    var payment := form.data.paymentMethod;
    var cash := CashOrZero(form.data.cashAmount);
    var total := Total(form.cart);
    if payment == Cash && cash < total then Err(InsufficientCash)
    else Ok(OrderDetails(form.data, form.cart, total,
                         if payment == Cash then ChangeAmount(payment, cash, total) else 0.0))
  }

  /** A submission goes through exactly when the checkout gate lets it, save for the empty cart. */
  lemma {:induction false} SubmitAgreesWithGate(form: OrderForm)
    requires |form.cart| > 0
    ensures var sufficient := IsCashSufficient(form.data.paymentMethod, CashOrZero(form.data.cashAmount), Total(form.cart));
      OnSubmit(form).Ok? <==> !IsCheckoutDisabled(form.cart, sufficient)
  {
  }

  /**
   * Submission has no empty-cart check: an empty cart is refused exactly when
   * the cash amount is negative, and otherwise becomes an order of total zero
   * whose change is the cash tendered; under the default fields the change is zero.
   */
  lemma {:induction false} EmptyCartIsNotRefusedBySubmit(data: OrderFormData)
    ensures OnSubmit(OrderForm(data, [])).Ok? <==> data.paymentMethod == Card || CashOrZero(data.cashAmount) >= 0.0
    ensures OnSubmit(OrderForm(data, [])).Ok? ==>
      OnSubmit(OrderForm(data, [])).value
        == OrderDetails(data, [], 0.0, if data.paymentMethod == Cash then CashOrZero(data.cashAmount) else 0.0)
    ensures OnSubmit(OrderForm(DefaultFormData, [])) == Ok(OrderDetails(DefaultFormData, [], 0.0, 0.0))
  {
  }

  /**
   * The form cannot tell an unset cash amount from an amount of zero: for the
   * same other fields and cart, both are gated, refused or accepted alike and
   * give the same total and change.
   */
  lemma {:induction false} UnsetCashCountsAsZero(data: OrderFormData, cart: Cart)
    ensures var unset := OnSubmit(OrderForm(data.(cashAmount := None), cart));
      var zero := OnSubmit(OrderForm(data.(cashAmount := Some(0.0)), cart));
      && unset.Ok? == zero.Ok?
      && (unset.Ok? ==> unset.value.totalAmount == zero.value.totalAmount
                        && unset.value.changeAmount == zero.value.changeAmount)
    ensures IsCashSufficient(data.paymentMethod, CashOrZero(None), Total(cart))
        == IsCashSufficient(data.paymentMethod, CashOrZero(Some(0.0)), Total(cart))
  {
  }

  /**
   * `onComplete`: the fields return to their defaults (empty customer fields,
   * cash payment of 0) and the cart empties,
   * so the total is zero and checkout is blocked with the empty-cart reason.
   */
  function OnComplete(form: OrderForm): (r: OrderForm)
    ensures r.data == DefaultFormData
    ensures r.data.customerName == "" && r.data.customerEmail == "" && r.data.customerPhone == ""
    ensures Total(r.cart) == 0.0 && TotalItems(r.cart) == 0
    ensures r.data.paymentMethod == Cash && CashOrZero(r.data.cashAmount) == 0.0
    ensures IsCheckoutDisabled(r.cart, IsCashSufficient(r.data.paymentMethod, CashOrZero(r.data.cashAmount), Total(r.cart)))
    ensures TooltipMessage(r.cart, r.data.paymentMethod, IsCashSufficient(r.data.paymentMethod, CashOrZero(r.data.cashAmount), Total(r.cart))) == EmptyCartMessage
  {
    OrderForm(DefaultFormData, [])
  }

  /**
   * One laptop with 10% off and two headphones without discount total 1380;
   * 1400 in cash leaves 20 in change, 1000 in cash is refused.
   */
  lemma CheckoutExample()
    ensures var cart := [CartItem(1, "Laptop", 1200.0, 1, Promotions[0]), CartItem(3, "Headphones", 150.0, 2, Promotions[4])];
      && Total(cart) == 1380.0
      && OnSubmit(OrderForm(OrderFormData("Ann", "ann@example.com", "0123456789", Cash, Some(1400.0)), cart)).Ok?
      && OnSubmit(OrderForm(OrderFormData("Ann", "ann@example.com", "0123456789", Cash, Some(1400.0)), cart)).value.changeAmount == 20.0
      && OnSubmit(OrderForm(OrderFormData("Ann", "ann@example.com", "0123456789", Cash, Some(1000.0)), cart)) == Err(InsufficientCash)
  {
    var cart := [CartItem(1, "Laptop", 1200.0, 1, Promotions[0]), CartItem(3, "Headphones", 150.0, 2, Promotions[4])];
    CatalogExamples();
    assert Total(cart) == ItemPrice(cart[0]) + ItemPrice(cart[1]) + Total(cart[2..]);
  }
}
