# Perfume storefront: cart, checkout and payment state in Dafny

This project models the cart-and-order core of a Django perfume storefront and
proves properties of the model. It covers five parts:

- **The session cart** (`CartModel`, cart.dfy). This is the `Cart` object: a
  dict of product lines keyed `"<perfume_id>_<capacity_id>"`, up to two sample
  ids kept as strings, a gift-wrap slot holding the raw value last stored, and
  special instructions. It includes the cart's iteration, total and length.
- **The cart views' decision logic** (`CartViews`, cart_views.dfy): the stock
  guards, the "no sample or gift on an empty cart" rule, the sample and gift
  toggles, and the promo and discounted-price figures of the cart pages.
- **The order rows** (`OrderModels`, order_models.dfy): the status and
  provider choices, `get_discounted_total` with Decimal's half-even
  `round(x, 2)`, and the orders table as a store of row values.
- **Checkout** (`OrderViews`, checkout.dfy). Checkout starts with the
  empty-cart guard and resolves the promo code kept in the session. Placing an
  order creates one Order row and copies every cart record into a child row.
  It then starts the payment, and deletes the order again when the provider
  raises.
- **Payment** (`Payment`, payment.dfy). This covers the Stripe line items in
  euro cents (`int(price*100)`, truncating) and the YooKassa receipt and amount
  in roubles (fixed rate 100, half-even to two places). It also covers the
  order-status changes driven by both webhooks and by the return and cancel
  pages.

Support modules:

- `Decimals` (decimals.dfy) holds the Decimal rounding rules.
- `Ids` (ids.dfy) holds decimal id strings and the Python list helpers.
- `Catalogs` (catalog.dfy) is the catalog, given as an input value.
- `Sessions` (session.dfy) holds the promo session keys.
- `Wrappers` (wrappers.dfy) holds `Option`.

Money is Python `Decimal`, which is exact. It is modelled as Dafny `real`, and
rounding happens only where the source rounds. The catalog is an input value:
perfumes with their discounted price, capacities, variants (price, availability,
stock), samples, gifts with their price, and active promo codes with their
percentage. The cart and the orders table are classes whose methods change
their fields. Each method is specified by a function on the old state. The
properties are proved about those functions.

Behaviour of the source that the proofs make explicit:

- **The gift toggle never removes a gift.** `set_gift_wrap` stores the int
  from the URL, and `cart_add_gift` compares the slot with `str(gift_id)`. The
  toggle-off branch therefore never runs (`GiftToggleNeverClears`, kept by
  every handler as `GiftSlotHoldsNoString`).
- **Stripe ignores the discount.** The Stripe session charges the full cart
  total in cents, whatever the discount (`StripeChargeIsCartTotal`,
  `ProviderAmounts`). The YooKassa payment amount is the discounted total,
  while its receipt items add up to the undiscounted total.
- **Callbacks can reopen finished orders.** A YooKassa `payment.succeeded`
  notification moves a shipped, delivered or cancelled order back to
  processing (`YookassaTransition`). The return page does so for shipped and
  delivered orders only (`ReturnPageReopensShipped`), because it sends a
  cancelled order to the cancel page before it asks the provider
  (`ReturnStatusKeepsSettled`). A Stripe
  `checkout.session.completed` event is applied again on every delivery
  (`StripeWebhookDeliveredTwice`).
- **Webhooks clear the wrong session.** Both webhooks clear the cart and promo
  keys of the session attached to the callback request, not the buyer's
  session.
- **`cart_update_quantity` accepts any quantity.** It accepts zero and negative
  quantities, and creates the line when it is missing. A negative `__len__`
  then makes `checkout`'s `if not cart` raise (`Checkout` returns
  `ServerFault`). When the lines add up to a positive length but one of them is
  negative, checkout gets past the guard. It then fails on the quantity column
  partway through the row loop, and the order is left half-copied. That
  database constraint is not modelled (see "Left out").
- **`yookassa_success` fails without an id.** Without an `order_id` it fails on
  an unbound `order` (`ServerError`).

## Model

| member | source | states |
|---|---|---|
| Ids.ParseNatToString | cart/cart.py:84-86 | A sample id stored as `str(id)` parses back to the same id. |
| Ids.ProductKeyInjective | cart/cart.py:21-22 | Two products keys `f"{perfume_id}_{capacity_id}"` are equal exactly when both ids are equal. |
| Ids.NatToStringInjective | cart/cart.py:136 | Distinct sample ids give distinct stored strings. |
| Ids.RemoveFirstMembers | cart/cart.py:154 | Python `list.remove` on a duplicate-free list drops exactly that element and keeps the list duplicate-free. It is the identity when the element is absent. |
| Decimals.Round2 | orders/models.py:55-56 | `round(x, 2)` gives a two-place value within half a cent of x. |
| Decimals.RoundHalfEvenUnique | orders/models.py:55 | The rounding is the nearest integer, and the even one on a tie. |
| Decimals.Round2OfTwoPlaces | orders/models.py:56 | Rounding a two-place value to two places gives it back. |
| Decimals.TruncateToInt | payment/views.py:37 | `int(x)` truncates toward zero. |
| Decimals.PercentOff | cart/views.py:52-54 | `total * (1 - d/100)` stays within [0, total] for 0 <= d <= 100. It is the total for d = 0 and zero for d = 100. |
| CartModel.ResolvePrice | cart/cart.py:39-44 | `_get_price`: the variant's price when it is truthy, otherwise the perfume's discounted price. |
| CartModel.AddedPreservesWellFormed | cart/cart.py:21-36 | `add` keeps one entry per key under its own key, and the key order duplicate-free. |
| CartModel.StepPreservesWellFormed | cart/cart.py:52-175 | Every other cart method keeps the document well formed: samples stay distinct and at most 2. |
| CartModel.ApplyAllPreservesWellFormed | cart/cart.py:135-148 | Any sequence of cart methods keeps at most two distinct samples and one entry per key. |
| CartModel.AddSetsLine | cart/cart.py:21-34 | `add` sets quantity `max(1, old + q)` (a new key counts from 0), or exactly `q` with override. The price is snapshotted only for a new key. A new key goes to the end of the insertion order, and an existing key keeps its place. No other entry, and nothing else in the cart, changes. |
| CartModel.RemoveAndUpdateTouchOneLine | cart/cart.py:128-132 | `remove` (lines 52-56) and `update_quantity` are no-ops for an absent key. Otherwise `remove` drops that entry and its key from the insertion order, keeping the other keys in order. `update_quantity` overwrites that entry's quantity only. |
| CartModel.RemoveSampleTouchesOneSample | cart/cart.py:151-155 | `remove_sample` is a no-op for an id not held. Otherwise it removes exactly that id and nothing else. |
| CartModel.ReplaceSampleEvictsOldest | cart/cart.py:142-148 | `replace_sample` on a full list drops index 0 and appends the new id (FIFO). |
| CartModel.RemoveThenReplaceSample | cart/cart.py:142-155 | Removing and then re-adding a held sample moves it to the end. |
| CartModel.ClearIsCanonical | cart/cart.py:118-125 | `clear` yields the empty shape of `__init__`, is idempotent, and the empty shape is well formed. |
| CartModel.SampleRecordsAreFree | cart/cart.py:83-96 | Sample records are yielded at price 0 and quantity 1, at most one per held id, and add 0 to the total. |
| CartModel.SampleRecordMembership | cart/cart.py:83-96 | A sample record is yielded exactly for a held id string whose sample row exists, keyed `sample_<id>`. Stale ids are skipped. |
| CartModel.ProductRecordsTotal | cart/cart.py:66-81 | The product records' price × quantity sums to the reference sum over entries whose perfume and capacity still exist. |
| CartModel.ProductRecordMembership | cart/cart.py:66-81 | A product record is yielded exactly when its key is stored with those ids, that quantity and that price, and both rows exist. |
| CartModel.GiftRecordsTotal | cart/cart.py:98-111 | At most one gift record is yielded. It is yielded exactly when the slot is truthy and names an existing gift, for that gift at its catalog price. The total gains that price once. |
| CartModel.TotalPriceIsLiveLinesPlusGift | cart/cart.py:59-63 | `get_total_price` is the sum over live product lines plus the gift's price once. Samples add nothing. |
| CartModel.LengthCountsStaleEntries | cart/cart.py:114-115 | `__len__` counts the quantities iteration yields plus those of stale entries it skips. |
| CartModel.Cart.constructor | cart/cart.py:8-18 | A new cart is the canonical empty document. |
| CartModel.Cart.Add | cart/cart.py:21-36 | The new document is `Added(old, ...)` and stays well formed. |
| CartModel.Cart.Remove | cart/cart.py:52-56 | The new document is `Step(old, Remove)`. |
| CartModel.Cart.UpdateQuantity | cart/cart.py:128-132 | The new document is `Step(old, UpdateQuantity)`. |
| CartModel.Cart.AddSample | cart/cart.py:135-139 | The new document is `Step(old, AddSample)`: append only when absent and fewer than 2 are held. |
| CartModel.Cart.ReplaceSample | cart/cart.py:142-148 | The new document is `Step(old, ReplaceSample)`. |
| CartModel.Cart.RemoveSample | cart/cart.py:151-155 | The new document is `Step(old, RemoveSample)`. |
| CartModel.Cart.RemoveAllSamples | cart/cart.py:158-160 | Samples become empty and nothing else changes. |
| CartModel.Cart.SetGiftWrap | cart/cart.py:163-165 | The slot holds the raw value passed in and nothing else changes. |
| CartModel.Cart.RemoveGiftWrap | cart/cart.py:168-170 | The slot becomes None and nothing else changes. |
| CartModel.Cart.SetSpecialInstructions | cart/cart.py:173-175 | The instructions are replaced and nothing else changes. |
| CartModel.Cart.Clear | cart/cart.py:118-125 | The cart becomes the canonical empty document. |
| CartModel.Cart.Items | cart/cart.py:66-111 | The loop yields exactly `Records(Doc())`: live products in insertion order, then existing samples, then the gift. |
| CartModel.Cart.GetTotalPrice | cart/cart.py:59-63 | The accumulated total equals `TotalPrice(Doc())`. |
| CartModel.Cart.Len | cart/cart.py:114-115 | The result equals the quantity sum over all stored entries. |
| CartModel.Cart.GetGiftWrap | cart/cart.py:183-190 | Returns a gift exactly when the slot is truthy and names an existing gift. |
| CartViews.CartAdd | cart/views.py:104-127 | The cart is unchanged without POST, without capacity, or when the capacity or variant is missing, unavailable or short of stock. A missing perfume is a 404. Otherwise `add`, with override only for the exact string 'True'. |
| CartViews.CartRemove | cart/views.py:150-157 | Removes the line and then every sample and the gift, whichever line it was. |
| CartViews.CartUpdateQuantity | cart/views.py:190-242 | Overwrites the quantity, creating the line if needed, exactly when the variant exists, is available and has the stock. Otherwise the cart is unchanged. |
| CartViews.CartAddSample | cart/views.py:272-307 | Refused while `products` is empty. Otherwise a held sample is removed and any other is added by `replace_sample`, so membership flips. |
| CartViews.CartRemoveSample | cart/views.py:336-338 | Removes the id, after which it is not held. |
| CartViews.CartAddGift | cart/views.py:368-403 | Refused while `products` is empty. Otherwise the slot becomes None when it equals `str(gift_id)`, else the int `gift_id`. |
| CartViews.CartRemoveGift | cart/views.py:432-434 | The slot becomes None. |
| CartViews.GiftToggleNeverClears | cart/views.py:398 | The slot never holds a string, so the toggle always sets the gift and never clears it. |
| CartViews.CartSummary | cart/views.py:78-95 | Total is `get_total_price`. Discount is the session value or 0. The discounted price is `total*(1-d/100)`. |
| CartViews.CartDetail | cart/views.py:14-69 | Instructions are saved on their POST. A valid active code stores the code, its percentage and the message. An invalid code sets only the message and keeps the promo keys. A code POST always shows the code summary, with the code's own percentage for a valid active code, and 0 otherwise. An invalid form shows 0 with an empty message, never the session's discount. A plain page view shows the session's discount, as in `CartSummary`. |
| OrderModels.StatusCodeRoundTrip | orders/models.py:11-17 | The five status codes are distinct and parse back to their status. |
| OrderModels.ProviderCodeRoundTrip | orders/models.py:18-21 | The two provider codes parse back to their provider. |
| OrderModels.DiscountedTotal | orders/models.py:51-56 | 0 without a total. Otherwise a two-place value within half a cent of `total*(1-d/100)` for d > 0, or of the total for d <= 0. |
| OrderModels.DiscountedTotalWithoutDiscount | orders/models.py:54-56 | With d <= 0 the result is exactly the two-place total. |
| OrderModels.DiscountedTotalWithinTotal | orders/models.py:54-55 | For a two-place total >= 0 and 0 < d <= 100 the result lies in [0, total]. For d = 100 it is 0. |
| OrderModels.OrderItem.TotalPrice | orders/models.py:71-72 | `get_total_price` is the row's price × quantity: zero for no units, the unit price for one, and never negative for a non-negative price and quantity. The rows' totals add up to the cart total (`OrderViews.RowsKeepCartTotal`). |
| OrderModels.OrderStore.Create | orders/views.py:73-89 | The row gets a fresh id and one write. Ids start at 1, as an auto-increment key does. Nothing else changes. |
| OrderModels.OrderStore.Save | orders/views.py:94-95 | The row is replaced and its write count goes up by one. |
| OrderModels.OrderStore.Delete | orders/views.py:132 | The row is gone and every other row is kept. |
| OrderModels.OrderStore.AddItem | orders/views.py:102-108 | An OrderItem is appended to that order's items. The order row itself is not written. |
| OrderModels.OrderStore.AddSample | orders/views.py:110-113 | An OrderSample is appended to that order's samples. |
| OrderModels.OrderStore.AddGift | orders/views.py:115-119 | An OrderGift is appended to that order's gifts. |
| OrderViews.ActiveCode | orders/views.py:28-31 | The session's code is kept exactly when it is an active promo code. |
| OrderViews.PromoDiscount | orders/views.py:24-31 | The discount is the active code's percentage, and 0 otherwise. |
| OrderViews.ResolveSessionPromo | orders/views.py:28-36 | A stale session code is removed together with its percentage and the discount is 0. An active one is kept with its discount. |
| OrderViews.RowPrice | orders/views.py:107 | `price or Decimal('0.00')` stores the record's price unchanged. |
| OrderViews.RowsFollowRecords | orders/views.py:99-119 | Every cart record becomes exactly one child row, and each product, sample and gift record its row with the same ids, quantity and price. |
| OrderViews.RowsKeepCartTotal | orders/views.py:99-119 | The item rows' `get_total_price` plus the gift rows' prices add up to the cart total. |
| OrderViews.NewOrderRowTotals | orders/views.py:23 | The new order's child rows add up to the `total_price` it stores. |
| OrderViews.ProviderAmounts | payment/views.py:53-119 | For the new order, Stripe charges the full total in cents, whatever the discount. YooKassa is asked for the discounted total × 100, and its receipt sums to the full total × 100. |
| OrderViews.CreateOrderRow | orders/views.py:73-97 | The order gets the cart's instructions, the total and the resolved discount, status pending and no provider. An active session code is attached with a second save. |
| OrderViews.CreateRecordRow | orders/views.py:101-119 | One loop step creates the single child row the record's type calls for. |
| OrderViews.CopyRecords | orders/views.py:99-119 | After the loop the order's items, samples and gifts are exactly the rows of the records, in order. |
| OrderViews.PlaceOrder | orders/views.py:73-119 | The store gains exactly `NewOrderRow(...)` under the next id. |
| OrderViews.ApplyPromoCode | orders/views.py:38-63 | A valid active code stores code and percentage. An unknown code removes both keys and the discount is 0. An invalid form keeps the discount. The summary is `total*(1-d/100)`. |
| OrderViews.PlaceOrderAndPay | orders/views.py:121-142 | Provider default is "stripe". On success the provider id and tag are saved and the cart is cleared. If the provider raises, the order is deleted and the cart kept. An unknown provider leaves the order unpaid and the cart intact. |
| OrderViews.Checkout | orders/views.py:17-169 | Length 0 redirects with no change, and a negative length raises. Otherwise the session promo is resolved and then the apply-promo, invalid-form, place-order or page branch runs as above. |
| Payment.MinorUnits | payment/views.py:37 | `int(price*100)` is at most the price in cents and within one cent below it. It is exact for two-place prices. |
| Payment.RubValue | payment/views.py:82-87 | The rouble value is a two-place number, exactly price × 100 for a two-place price. |
| Payment.YookassaAmount | payment/views.py:113-119 | The amount is exactly the discounted total × 100. |
| Payment.Charged | payment/views.py:29-51 | The charged records are the products and the gift. Samples are dropped. |
| Payment.StripeLineItemsFollowRecords | payment/views.py:29-51 | One Stripe entry per charged record: `int(price*100)` and the cart quantity, or 1 for the gift. |
| Payment.ReceiptItemsFollowRecords | payment/views.py:80-106 | One receipt item per charged record: its quantity and its rouble price. |
| Payment.StripeChargeIsCartTotal | payment/views.py:29-53 | With two-place prices, Σ unit_amount × quantity is the undiscounted cart total × 100. |
| Payment.ReceiptSumIsCartTotal | payment/views.py:80-106 | With two-place prices the receipt sums to the undiscounted cart total × 100. |
| Payment.BuildStripeLineItems | payment/views.py:28-51 | The loop builds exactly `StripeLineItems(records)`. |
| Payment.BuildReceiptItems | payment/views.py:79-106 | The loop builds exactly `ReceiptItems(records)`. |
| Payment.CreateStripeCheckoutSession | payment/views.py:26-71 | On success the payment intent and provider 'stripe' are saved with one write. When the SDK raises the order is untouched. |
| Payment.CreateYookassaPayment | payment/views.py:77-144 | The request carries the discounted rouble amount, the receipt and the ids. On success the payment id and provider 'yookassa' are saved. When the SDK raises the order is untouched. |
| Payment.LookupOrder | payment/views.py:167-169 | A missing id finds nothing. A non-numeric id is malformed (the lookup raises). A numeric id finds the order exactly when the table holds it. |
| Payment.LookupFindsOwnId | payment/views.py:62 | The `order_id` put in the metadata finds that order again. |
| Payment.LookupOwnedOrder | payment/views.py:215 | An order is found exactly when both ids are numeric and the order with that id belongs to that user, including non-canonical digit strings such as "007". The lookup is malformed exactly when either id is not numeric. |
| Payment.LookupOwnedFindsOwnIds | payment/views.py:128-131 | The metadata ids sent with a payment find that order again. |
| Payment.StripeWebhook | payment/views.py:149-186 | A rejected payload or signature gives 400 with no change, and other events 200 with no change. `checkout.session.completed` sets processing with the intent, with no duplicate guard, and clears the request session's cart and promo keys. A missing order is 404. |
| Payment.YookassaTransition | payment/views.py:217-246 | Goes to processing exactly on succeeded/succeeded for an order not already processing, cancelled or shipped included. Goes to cancelled exactly on canceled/canceled for an order not already cancelled. |
| Payment.YookassaReplayIsNoOp | payment/views.py:219-240 | Delivering the same notification a second time changes nothing. |
| Payment.YookassaWebhook | payment/views.py:191-256 | Malformed JSON, a falsy `order_id`/`user_id`, or no order with that id and user gives 400 with no change. A non-numeric id gives 500. Otherwise 200 and the transition: processing stores the payment id and clears the request session's cart and promo keys, and cancelled changes only the status. |
| Payment.ReturnStatusKeepsSettled | payment/views.py:283-286 | The return page never moves a processing or cancelled order. |
| Payment.ReturnStatusMoves | payment/views.py:287-297 | The return page changes a status only with a stored payment id, and to processing exactly when the provider says succeeded. |
| Payment.ReturnPageReopensShipped | payment/views.py:290-292 | A shipped or delivered order whose payment the provider reports as succeeded goes back to processing. |
| Payment.YookassaSuccess | payment/views.py:279-300 | Without `order_id` the view errors. An unknown id is 404. Processing and cancelled orders short-circuit. Otherwise the status becomes `ReturnStatus(...)`, saved only when it changes, and the page follows it. |
| Payment.CancelReturn | payment/views.py:269-276 | `stripe_cancel` and `yookassa_cancel` (lines 303-310, the same code) set cancelled unconditionally with one save. Without `order_id` they redirect with no change. |
| Payment.StripeWebhookDeliveredTwice | payment/views.py:165-172 | The same completed event delivered twice saves the order twice. |
| Payment.YookassaWebhookDeliveredTwice | payment/views.py:217-246 | The same notification delivered twice writes the order at most once. The second delivery is a 200 no-op. |
| Sessions.PromoSession.ForgetPromo | payment/views.py:178-181 | The three promo keys are gone and the session discount reads as 0. |

## Left out

- The Django ORM, the session store and JSON serialisation. The catalog is an
  input value and the orders table a class. Row locking (`select_for_update`)
  and concurrent requests are not modelled. The modelled webhook transitions
  assume the request runs in a transaction, or on a database without row
  locks. Otherwise `select_for_update()` outside a transaction raises, and the
  YooKassa webhook answers 500 for every order (payment/views.py:215, 254-256).
  The database settings that decide this are not part of this model.
- Template rendering, HTMX headers, cookies, redirects and logging. A view's
  outcome is a small datatype, and error messages are kept only where a
  contract mentions them.
- `Cart.__init__` when the session already holds a cart: a handler receives
  that cart as its `cart` argument. The `save()` and `session.modified`
  bookkeeping is not modelled.
- The Stripe and YooKassa SDKs and `stripe.Webhook.construct_event`. Their
  outcomes are parameters (`SdkResult`, `StripeEvent`, `ProviderCheck`),
  including the payment id they return. The payment objects' redirect URLs
  are not modelled.
- `stripe_success` only retrieves and renders, and changes no state, so it is
  not modelled.
- Form validation (`OrderForm`, `PromoCodeForm`, `strip_tags`) is a boolean
  parameter. Billing and shipping fields of the order are not modelled.
- `Perfume.get_price_with_discount` (main/models.py) is not part of this
  model. The catalog gives each perfume's discounted price directly.
- Parsing of request parameters. Posted quantities, capacity and perfume ids
  arrive as numbers; a non-numeric quantity makes `int()` raise in the source,
  which is not modelled. Callback ids are strings, and an id counts as numeric
  only when it is a non-empty string of ASCII digits. Python's `int()` also
  accepts surrounding blanks and a sign, which is not modelled.
- `stripe_webhook` is POST-only (payment/views.py:148). Any other method gets
  a 405, which is not modelled. The cart, session and orders are unchanged in
  that case.
- `checkout` requires a logged-in user (orders/views.py:16). An anonymous
  request is redirected to the login page, which is not modelled. The cart,
  session and orders are unchanged in that case.
- CartViews.CartUpdateQuantity: outside the modal, a refused update renders the
  cart's line for that product with `next(...)` (cart/views.py:217 and 238).
  When that line is not a live cart line, this raises StopIteration, a 500. The
  model returns `Refused` in that case. The cart is unchanged either way.
- A YooKassa webhook body that is not valid UTF-8, or whose top-level JSON value
  is not an object, makes the handler raise and answer 500 (payment/views.py:198-200
  and 254-256). The model's only bad-body case is `InvalidJson`, which gives 400.
- CartModel.GiftRecords: a string slot that is not a digit string makes
  `Gift.objects.get` raise ValueError in `__iter__` and `get_gift_wrap`
  (cart/cart.py:101 and 187), which catch only DoesNotExist. The model yields no
  gift in that case. No handler ever stores a string in the slot
  (`GiftSlotHoldsNoString`).
- The YooKassa webhook's 405 branch for non-POST requests, and payloads whose
  `object` or `metadata` is not a JSON object (a 500 in the source). Metadata
  values are taken as strings, as the provider returns them.
- Database constraints: `PositiveIntegerField` on quantities, `max_digits`
  and `decimal_places` on prices. Prices are exact reals. The lemmas that need
  two-place prices say so in their `requires`.
- Payment.ReceiptItem: the quantity is sent as `str(quantity)`. The model
  keeps the number.
- Payment.RubValue: the `:.2f` formatting is modelled as the two-place number
  it prints, not as text.
- The views that only render the cart (`cart_items`, `sample_counter`,
  `cart_modal`) and `Cart.get_samples`, a query that changes nothing.
- Text of names and descriptions: product names, `Order #id`, currencies and
  VAT codes.
