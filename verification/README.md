# Order pricing and cart engine

A Dafny model of the order-creation form's pricing core. It covers these parts:

- **Static catalogs.** Five products and five promotions, with "NONE" as the default promotion.
- **Two line-item pricers.** The form's `calculateItemPrice`, which short-circuits on the `"NONE"` code, and the copy in `utils/order.ts`, which looks only at the promotion kind.
- **Cart totals.** The order total and the total number of units.
- **Cart transformations.** The five changes the form makes to its cart: add, remove, update quantity, update price and update promotion.
- **Settlement.** Change due and whether the cash covers the total.
- **Checkout gate and summary.** The checkout button's state, its tooltip and the cash notice in the order summary.
- **Submission and completion.** Order submission and the reset after an order completes.

Money is an exact `real` and quantities are `int`. Every operation is a pure function on immutable data. A cart transformation returns the cart the form would store.

Modules, leaves first:

- `Wrappers`: `Option` and `Result`.
- `Lookup`: the first-match search that `Array.prototype.find` performs.
- `OrderTypes`: the types of `types/order.ts`.
- `Catalog`: the catalogs of `constants/order.ts`.
- `Pricing`: both pricers and how they relate.
- `CartState`: totals and cart transformations.
- `Checkout`: settlement, the gate, the summary, submission and completion.

Three behaviours of the code worth noting:

- **Percentage discounts are not clamped.** Neither pricer clamps a percentage discount at zero (components/create-order/CreateOrderForm.tsx:249-251, utils/order.ts:6-7). The model keeps the unclamped formula, and `PercentageAboveHundredIsNegative` shows the negative result. The catalog never holds a percentage above 100, so carts built by the form never reach it.
- **Submission does not check for an empty cart.** `onSubmit` checks only cash sufficiency (components/create-order/CreateOrderForm.tsx:169). The disabled checkout button is what blocks an empty cart (components/create-order/OrderSummary.tsx:28). See `EmptyCartIsNotRefusedBySubmit` and `SubmitAgreesWithGate`.
- **Unknown promotion kinds cannot happen.** The kind is a closed enumeration (types/order.ts:7-11), so no other value exists. The fall-through branches return the subtotal, as the code does.

## Model

| member | source | states |
|---|---|---|
| Lookup.Find | components/create-order/CreateOrderForm.tsx:90 | the result is absent exactly when no element matches; otherwise it is the first matching element |
| Catalog.FindProduct | components/create-order/CreateOrderForm.tsx:90 | a product id is found exactly when it is 1 to 5, and id n finds the n-th catalog product |
| Catalog.FindPromotion | components/create-order/CreateOrderForm.tsx:154 | a promotion id is found exactly when it is 1 to 5, and id n finds the n-th catalog promotion |
| Catalog.ProductCatalogWellFormed | constants/order.ts:16-22 | product ids are pairwise distinct and every catalog price is positive |
| Catalog.PromotionCatalogWellFormed | constants/order.ts:24-60 | promotion ids are pairwise distinct; in each promotion, code "NONE" goes with kind none and vice versa; every value is non-negative and every percentage is at most 100 |
| Catalog.DefaultPromotionIsNoDiscount | constants/order.ts:53-59 | the fifth promotion, used for new lines, has code "NONE", kind none and value 0, and its id finds it |
| Pricing.ItemPrice | components/create-order/CreateOrderForm.tsx:244-258 | a "NONE"-coded or kind-none line costs exactly its subtotal; a fixed discount not coded "NONE" is never negative; with a non-negative subtotal and an in-range promotion, the price lies between 0 and the subtotal |
| Pricing.ItemPriceByKind | utils/order.ts:3-13 | kind none costs the subtotal whatever the code; fixed is never negative; with a non-negative subtotal and an in-range promotion, the price lies between 0 and the subtotal |
| Pricing.PriceByKindBounds | utils/order.ts:6-10 | max(0, subtotal - value) is never negative; a percentage from 0 to 100 of a non-negative subtotal leaves between 0 and the subtotal |
| Pricing.PercentageLinePrice | components/create-order/CreateOrderForm.tsx:249-251 | a percentage line costs subtotal * (1 - value/100), and both pricers agree on it unless it is coded "NONE" |
| Pricing.FixedLinePrice | components/create-order/CreateOrderForm.tsx:253-255 | a fixed line costs max(0, subtotal - value), which lies in [0, subtotal] for a non-negative value; both pricers agree unless it is coded "NONE" |
| Pricing.PercentageAboveHundredIsNegative | utils/order.ts:6-7 | a percentage above 100 on a positive subtotal gives a negative price, because the branch has no clamp |
| Pricing.PricersDisagreeExactly | utils/order.ts:3-13 | the two pricers differ exactly when the code is "NONE" and the kind alone would change the subtotal |
| Pricing.PricersAgree | components/create-order/CreateOrderForm.tsx:244-258 | when code "NONE" implies kind none, both pricers return the same value |
| Pricing.PricersDisagreeOnMiscodedPromotion | components/create-order/CreateOrderForm.tsx:245-247 | 10% off coded "NONE" on one item at 100 costs 100 in the form and 90 in the utility |
| Pricing.CatalogPricing | constants/order.ts:24-60 | under any catalog promotion the two pricers agree, and a line with non-negative price and quantity costs between 0 and its subtotal |
| Pricing.CatalogExamples | constants/order.ts:16-52 | Laptop x1 with SAVE10 costs 1080; Headphones x2 with NONE cost 300; Monitor x1 with FLAT100 costs 200 |
| Pricing.FixedDiscountBeyondSubtotal | components/create-order/CreateOrderForm.tsx:253-255 | a fixed discount of 500 on a subtotal of 300 gives 0, not a negative price |
| CartState.FindLine | components/create-order/CreateOrderForm.tsx:92 | a line is found exactly when the cart has a line with that product id, and it is such a line |
| CartState.Total | components/create-order/CreateOrderForm.tsx:73-75 | the order total: the sum of every line's price, the reference the fold and the total lemmas are stated against |
| CartState.TotalItems | components/create-order/OrderSummary.tsx:47 | the unit count: the sum of the line quantities |
| CartState.TotalAmount | components/create-order/CreateOrderForm.tsx:73-75 | the left fold from 0 of line prices equals the sum of the line prices |
| CartState.TotalConcat | components/create-order/CreateOrderForm.tsx:73-75 | the total of two carts joined end to end is the sum of their totals |
| CartState.TotalAppend | components/create-order/CreateOrderForm.tsx:73-75 | appending a line adds exactly that line's price to the total |
| CartState.TotalPermutation | components/create-order/CreateOrderForm.tsx:73-75 | reordering the lines does not change the total |
| CartState.TotalNonNegative | components/create-order/CreateOrderForm.tsx:73-75 | lines with catalog promotions and non-negative prices and quantities have a non-negative total |
| CartState.TotalReplace | components/create-order/CreateOrderForm.tsx:73-75 | replacing one line changes the total by the difference of the two line prices, and the unit count by the difference of the two quantities |
| CartState.TotalItemsAtLeastLines | components/create-order/OrderSummary.tsx:47 | when every quantity is at least 1, the unit count is at least the number of lines, and it is 0 exactly for an empty cart |
| CartState.AddToCart | components/create-order/CreateOrderForm.tsx:89-117 | an id outside the catalog changes nothing; a product already in the cart gets one more unit on its line and no other line changes; a new product is appended as one unit at its catalog name and price with the default promotion; unique ids, positive quantities, catalog promotions and non-negative prices are kept |
| CartState.RemoveFromCart | components/create-order/CreateOrderForm.tsx:119-125 | no line with the id remains; every other line remains; an absent id changes nothing; unique ids, positive quantities, catalog promotions and non-negative prices are kept |
| CartState.RemoveFromCartAt | components/create-order/CreateOrderForm.tsx:119-125 | with unique ids, removing the line at index k leaves the lines before it followed by the lines after it |
| CartState.RemoveFromCartTotal | components/create-order/CreateOrderForm.tsx:119-125 | with unique ids, removal lowers the total by the removed line's price and the unit count by its quantity |
| CartState.UpdateQuantity | components/create-order/CreateOrderForm.tsx:127-139 | a quantity of 0 or less changes nothing; otherwise only the quantity of the matching line changes; length, order, ids, positive quantities, catalog promotions and non-negative prices are kept |
| CartState.UpdatePrice | components/create-order/CreateOrderForm.tsx:141-151 | a price of 0 or less changes nothing; otherwise only the price of the matching line changes, to a positive price; length, order, ids, positive quantities and catalog promotions are kept |
| CartState.UpdatePromotion | components/create-order/CreateOrderForm.tsx:153-166 | a promotion id outside the catalog changes nothing; otherwise only the promotion of the matching line changes, to that catalog entry; length, order, ids, positive quantities and non-negative prices are kept |
| CartState.TransformationsKeepValid | components/create-order/CreateOrderForm.tsx:89-166 | every one of the five transformations maps a valid cart (unique ids, quantities of at least 1, catalog promotions, non-negative prices) to a valid cart, so with ValidCartTotalNonNegative every cart the form builds from an empty one totals at least 0 |
| CartState.ValidCartTotalNonNegative | components/create-order/CreateOrderForm.tsx:73-75 | a cart with unique ids, quantities of at least 1, catalog promotions and non-negative prices totals at least 0, and the empty cart is such a cart |
| CartState.AddNewProductTotal | components/create-order/CreateOrderForm.tsx:106-112 | adding a product not yet in the cart raises the total by exactly its catalog price and the unit count by 1 |
| CartState.AddExistingProductTotal | components/create-order/CreateOrderForm.tsx:94-101 | adding a product already in the cart changes the total by that line's price difference and raises the unit count by 1 |
| CartState.UpdateQuantityTotal | components/create-order/CreateOrderForm.tsx:127-133 | a quantity change moves the total by that line's price difference and the unit count by the quantity difference |
| CartState.UpdatePriceTotal | components/create-order/CreateOrderForm.tsx:141-145 | a price change moves the total by that line's price difference only |
| CartState.UpdatePromotionTotal | components/create-order/CreateOrderForm.tsx:153-160 | a promotion change moves the total by that line's price difference only |
| Checkout.IsCashSufficient | components/create-order/CreateOrderForm.tsx:83-87 | payment suffices for any method other than cash, and for cash exactly when the amount covers the total |
| Checkout.ChangeAmount | components/create-order/CreateOrderForm.tsx:77-81 | the change is non-negative exactly when payment suffices; card payment gives 0 change; for cash, the total plus the change equals the cash |
| Checkout.SufficientIffChangeNonNegative | components/create-order/CreateOrderForm.tsx:77-87 | payment suffices exactly when the change is non-negative; card always suffices with change 0; cash suffices exactly when it covers the total |
| Checkout.UnsetCashCountsAsZero | components/create-order/CreateOrderForm.tsx:66 | with the other fields and the cart fixed, an unset cash amount and an amount of 0 get the same sufficiency verdict, the same submission outcome, and the same total and change |
| Checkout.UnsetCashAgainstTotal | components/create-order/CreateOrderForm.tsx:66 | unset cash suffices exactly when the total is at most 0, and its change is minus the total |
| Checkout.IsCheckoutDisabled | components/create-order/OrderSummary.tsx:28 | checkout is off exactly for an empty cart or insufficient payment |
| Checkout.TooltipMessage | components/create-order/OrderSummary.tsx:31-39 | an empty cart gives the "add at least one product" message whatever the payment; otherwise insufficient cash under cash payment gives the "insufficient" message; the message is empty exactly in the remaining cases |
| Checkout.TooltipEmptyIffCheckoutEnabled | components/create-order/OrderSummary.tsx:28-39 | with the form's sufficiency, the tooltip is empty exactly when checkout is enabled, and checkout is disabled exactly for an empty cart or cash below the total |
| Checkout.TooltipNeedsFormSufficiency | components/create-order/OrderSummary.tsx:28-39 | given a "not sufficient" flag under card payment, the summary disables checkout but shows no reason |
| Checkout.CashNoticeFor | components/create-order/OrderSummary.tsx:53-75 | no notice for card; under cash, the change is shown exactly when the cash covers the total, and otherwise a strictly positive shortfall that makes up the difference |
| Checkout.ChangeNoticeIsNonNegative | components/create-order/OrderSummary.tsx:53-64 | with the form's change, a change notice is never negative and total plus change equals the cash |
| Checkout.OnSubmit | components/create-order/CreateOrderForm.tsx:168-184 | refused exactly when paying cash below the total; otherwise the snapshot carries the fields, the cart and its total, with change never negative, 0 for card, and cash = total + change for cash |
| Checkout.SubmitAgreesWithGate | components/create-order/CreateOrderForm.tsx:168-184 | for a non-empty cart, submission succeeds exactly when checkout is enabled |
| Checkout.EmptyCartIsNotRefusedBySubmit | components/create-order/CreateOrderForm.tsx:168-172 | for any fields, an empty cart is refused exactly when cash payment has a negative amount; otherwise it becomes an order of total 0 whose change is the cash tendered (0 under the default fields) |
| Checkout.OnComplete | components/create-order/CreateOrderForm.tsx:233-238 | after completion every field is back to its default (empty customer name, email and phone; cash payment of 0), the cart totals 0 with 0 units, and checkout is disabled with the empty-cart message |
| Checkout.CheckoutExample | components/create-order/CreateOrderForm.tsx:73-87 | Laptop x1 with SAVE10 plus Headphones x2 with NONE totals 1380; 1400 in cash gives 20 change; 1000 in cash is refused |

## Left out

- **Rendering and notifications.** All React and antd rendering, animation, `useState`/`useMemo` reactivity and `messageApi` toasts are left out. They are presentation and side effects. The transformations return the new cart instead of calling `setCart`.
- **Form validation.** The yup schema (CreateOrderForm.tsx:26-45) is left out. It delegates to a library whose semantics are not visible here, such as email syntax. The model accepts any field values.
- **Form plumbing.** `ProductsSection.tsx`, `ConfirmOrderModal.tsx`, `PaymentSection.tsx`, `CustomerForm.tsx`, `app/page.tsx` and `components/ui/Toast.tsx` are wiring, display or type declarations only. This includes the currency formatter and parser in `ProductsSection.tsx`, which rely on JavaScript number-to-string conversion.
- **Styling.** `COLORS` holds styling constants only.
- **Floating point.** IEEE-754 rounding and `toFixed(2)` formatting are not modelled. Money is exact.
- **NaN.** `|| 0` would also turn a NaN cash amount into 0. The model has no NaN.
- **Missing promotion.** The `!item.promotion` test in the form's pricer has no counterpart. `CartItemType` makes the promotion mandatory, so the model requires one on every line.
- **Watched values.** `onSubmit` reads the payment method and cash amount from watched state but builds the snapshot from its `data` argument. The model treats both as the same form data.
- UpdateQuantity: quantities are integers, so the positive-quantity guard keeps every quantity at 1 or more. A fractional JavaScript number such as 0.5 would pass the source's `> 0` test; that case is not modelled.
