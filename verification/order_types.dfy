/**
 * The shapes of the order form (types/order.ts). Money is an exact `real`
 * where the source uses a binary floating-point number.
 */
module OrderTypes {
  import opened Wrappers

  /** The closed set of ways to pay. */
  datatype PaymentMethod = Cash | Card

  /** The closed set of promotion kinds: percentage off, fixed amount off, or none. */
  datatype PromotionKind = Percentage | Fixed | NoDiscount

  type Money = real

  /** A catalog product. */
  datatype Product = Product(id: int, name: string, price: Money)

  /**
   * A catalog promotion. `value` is a percentage for `Percentage`, an amount
   * of money for `Fixed`, and carries no meaning for `NoDiscount`.
   */
  datatype Promotion = Promotion(id: int, code: string, kind: PromotionKind, value: Money, description: string)

  /**
   * One cart line: the fields of the product it was added from, a quantity
   * and the promotion applied to it. The price may be edited after adding,
   * so it can differ from the catalog price.
   */
  datatype CartItem = CartItem(id: int, name: string, price: Money, quantity: int, promotion: Promotion)

  type Cart = seq<CartItem>

  /** The customer and payment fields of the form; the cash amount may be unset. */
  datatype OrderFormData = OrderFormData(
    customerName: string,
    customerEmail: string,
    customerPhone: string,
    paymentMethod: PaymentMethod,
    cashAmount: Option<Money>)

  /** The snapshot handed to the confirmation step when an order is submitted. */
  datatype OrderDetails = OrderDetails(form: OrderFormData, cart: Cart, totalAmount: Money, changeAmount: Money)
}
