/**
 * Payment initiation and reconciliation (payment/views.py): the Stripe line
 * items and YooKassa receipt built from the cart, the provider id stored on
 * success, and the order-status changes driven by the two webhooks and the
 * return pages.
 *
 * The provider SDKs and the webhook signature check are not modelled: what
 * they return reaches each method as a parameter (`SdkResult`,
 * `StripeEvent`, `YookassaNotification`, `ProviderCheck`). The cart and the
 * promo keys a webhook clears are those of the session attached to the
 * callback request, passed in as `cart` and `session`.
 */
module Payment {
  import opened Wrappers
  import opened Ids
  import opened Decimals
  import opened Catalogs
  import opened CartModel
  import opened OrderModels
  import opened Sessions

  // ---------------------------------------------------------------------------
  // Amounts

  /** Euro cents for a price: `int(price * 100)`, truncated toward zero. */
  function MinorUnits(price: real): (n: int)
    ensures 0.0 <= price ==> 0 <= n && n as real <= price * 100.0 < n as real + 1.0
    ensures TwoPlaces(price) ==> n as real == price * 100.0
  {
    if TwoPlaces(price) then (TruncateTwoPlacesTimes100(price); TruncateToInt(price * 100.0))
    else TruncateToInt(price * 100.0)
  }

  /** The fixed conversion rate EUR_TO_RUB_RATE. */
  const EurToRubRate: real := 100.0

  /** The two-place number `f"{price * EUR_TO_RUB_RATE:.2f}"` prints (half-even). */
  function RubValue(price: real): (r: real)
    ensures TwoPlaces(r)
    ensures TwoPlaces(price) ==> r == price * EurToRubRate
  {
    if TwoPlaces(price) then (TwoPlacesTimes100(price); Round2(price * EurToRubRate))
    else Round2(price * EurToRubRate)
  }

  lemma TwoPlacesTimes100(x: real)
    requires TwoPlaces(x)
    ensures TwoPlaces(x * 100.0) && Round2(x * 100.0) == x * 100.0
  {
    var k := (x * 100.0).Floor;
    assert x * 100.0 * 100.0 == (k * 100) as real;
    Round2OfTwoPlaces(x * 100.0);
  }

  /** The payment amount sent to YooKassa: the order's discounted total in roubles, to two places. */
  function YookassaAmount(o: Order): (amount: real)
    ensures amount == DiscountedTotal(Some(o.totalPrice), o.discountPercentage) * EurToRubRate
  {
    RubValue(DiscountedTotal(Some(o.totalPrice), o.discountPercentage))
  }

  // ---------------------------------------------------------------------------
  // Line items

  /** One Stripe `line_items` entry: `unit_amount` in euro cents and `quantity`. */
  datatype StripeLineItem = StripeLineItem(unitAmount: int, quantity: int)

  /** One receipt item: the `quantity` (sent as its decimal string) and the rouble `amount.value`. */
  datatype ReceiptItem = ReceiptItem(quantity: int, value: real)

  /** The records a provider is asked to charge for: products and the gift; samples are free and omitted. */
  function Charged(rs: seq<Record>): (paid: seq<Record>)
    ensures |paid| <= |rs|
    ensures forall i :: 0 <= i < |paid| ==> !paid[i].SampleItem? && paid[i] in rs
    ensures forall r :: r in rs && !r.SampleItem? ==> r in paid
    decreases |rs|
  {
    if rs == [] then []
    else
      var init := Charged(rs[..|rs| - 1]);
      var last := rs[|rs| - 1];
      assert forall r :: r in rs ==> r in rs[..|rs| - 1] || r == last;
      if last.SampleItem? then init else init + [last]
  }

  function StripeLineItems(rs: seq<Record>): seq<StripeLineItem>
    decreases |rs|
  {
    if rs == [] then []
    else
      var r := rs[|rs| - 1];
      StripeLineItems(rs[..|rs| - 1]) +
      (if r.SampleItem? then [] else [StripeLineItem(MinorUnits(r.UnitPrice()), r.Quantity())])
  }

  function ReceiptItems(rs: seq<Record>): seq<ReceiptItem>
    decreases |rs|
  {
    if rs == [] then []
    else
      var r := rs[|rs| - 1];
      ReceiptItems(rs[..|rs| - 1]) +
      (if r.SampleItem? then [] else [ReceiptItem(r.Quantity(), RubValue(r.UnitPrice()))])
  }

  /** Every Stripe entry stands for one charged record: its price in cents and its quantity (1 for the gift). */
  lemma {:induction false} StripeLineItemsFollowRecords(rs: seq<Record>)
    ensures |StripeLineItems(rs)| == |Charged(rs)|
    ensures forall i :: 0 <= i < |Charged(rs)| ==>
              StripeLineItems(rs)[i] == StripeLineItem(MinorUnits(Charged(rs)[i].UnitPrice()), Charged(rs)[i].Quantity())
    decreases |rs|
  {
    if rs != [] {
      StripeLineItemsFollowRecords(rs[..|rs| - 1]);
    }
  }

  /** Every receipt item stands for one charged record: its quantity and its rouble price. */
  lemma {:induction false} ReceiptItemsFollowRecords(rs: seq<Record>)
    ensures |ReceiptItems(rs)| == |Charged(rs)|
    ensures forall i :: 0 <= i < |Charged(rs)| ==>
              ReceiptItems(rs)[i] == ReceiptItem(Charged(rs)[i].Quantity(), RubValue(Charged(rs)[i].UnitPrice()))
    decreases |rs|
  {
    if rs != [] {
      ReceiptItemsFollowRecords(rs[..|rs| - 1]);
    }
  }

  /** Σ unit_amount × quantity over the Stripe entries. */
  function StripeCharge(items: seq<StripeLineItem>): int
    decreases |items|
  {
    if items == [] then 0
    else StripeCharge(items[..|items| - 1]) + items[|items| - 1].unitAmount * items[|items| - 1].quantity
  }

  /** Σ value × quantity over the receipt items. */
  function ReceiptSum(items: seq<ReceiptItem>): real
    decreases |items|
  {
    if items == [] then 0.0
    else ReceiptSum(items[..|items| - 1]) + items[|items| - 1].value * items[|items| - 1].quantity as real
  }

  /** Every record price has at most two decimal places, as the price columns hold. */
  predicate PricesInCents(rs: seq<Record>) {
    forall i :: 0 <= i < |rs| ==> TwoPlaces(rs[i].UnitPrice())
  }

  /**
   * With two-place prices the Stripe session charges exactly the cart total in
   * cents: truncation loses nothing, and no discount enters the line items.
   */
  lemma {:induction false} StripeChargeIsCartTotal(rs: seq<Record>)
    requires PricesInCents(rs)
    ensures StripeCharge(StripeLineItems(rs)) as real == Total(rs) * 100.0
    decreases |rs|
  {
    if rs != [] {
      var init := rs[..|rs| - 1];
      var r := rs[|rs| - 1];
      assert PricesInCents(init) by {
        forall i | 0 <= i < |init| ensures TwoPlaces(init[i].UnitPrice()) {
          assert init[i] == rs[i];
        }
      }
      StripeChargeIsCartTotal(init);
      assert TwoPlaces(r.UnitPrice()) by { assert r == rs[|rs| - 1]; }
      var tail := if r.SampleItem? then [] else [StripeLineItem(MinorUnits(r.UnitPrice()), r.Quantity())];
      assert StripeLineItems(rs) == StripeLineItems(init) + tail;
      StripeChargeAppend(StripeLineItems(init), tail);
    }
  }

  lemma {:induction false} StripeChargeAppend(a: seq<StripeLineItem>, b: seq<StripeLineItem>)
    requires |b| <= 1
    ensures StripeCharge(a + b) == StripeCharge(a) + StripeCharge(b)
  {
    if b == [] {
      assert a + b == a;
    } else {
      assert (a + b)[..|a + b| - 1] == a;
    }
  }

  /** With two-place prices the receipt adds up to the undiscounted cart total in roubles. */
  lemma {:induction false} ReceiptSumIsCartTotal(rs: seq<Record>)
    requires PricesInCents(rs)
    ensures ReceiptSum(ReceiptItems(rs)) == Total(rs) * EurToRubRate
    decreases |rs|
  {
    if rs != [] {
      var init := rs[..|rs| - 1];
      var r := rs[|rs| - 1];
      assert PricesInCents(init) by {
        forall i | 0 <= i < |init| ensures TwoPlaces(init[i].UnitPrice()) {
          assert init[i] == rs[i];
        }
      }
      ReceiptSumIsCartTotal(init);
      assert TwoPlaces(r.UnitPrice()) by { assert r == rs[|rs| - 1]; }
      var tail := if r.SampleItem? then [] else [ReceiptItem(r.Quantity(), RubValue(r.UnitPrice()))];
      assert ReceiptItems(rs) == ReceiptItems(init) + tail;
      if tail == [] {
        assert ReceiptItems(init) + tail == ReceiptItems(init);
      } else {
        assert (ReceiptItems(init) + tail)[..|ReceiptItems(init) + tail| - 1] == ReceiptItems(init);
      }
    }
  }

  // ---------------------------------------------------------------------------
  // Creating the provider payment

  /** What the provider SDK's create call did: returned an object carrying an id, or raised. */
  datatype SdkResult = Created(reference: Option<string>) | Raised

  /** The line-item loop of `create_stripe_checkout_session`. */
  method BuildStripeLineItems(records: seq<Record>) returns (items: seq<StripeLineItem>)
    ensures items == StripeLineItems(records)
  {
    items := [];
    var i := 0;
    while i < |records|
      invariant 0 <= i <= |records|
      invariant items == StripeLineItems(records[..i])
    {
      assert records[..i + 1][..i] == records[..i];
      var r := records[i];
      if r.ProductItem? {
        items := items + [StripeLineItem(MinorUnits(r.price), r.quantity)];
      } else if r.GiftItem? {
        items := items + [StripeLineItem(MinorUnits(r.price), 1)];
      }
      i := i + 1;
    }
    assert records[..i] == records;
  }

  /** The receipt loop of `create_yookassa_payment`. */
  method BuildReceiptItems(records: seq<Record>) returns (items: seq<ReceiptItem>)
    ensures items == ReceiptItems(records)
  {
    items := [];
    var i := 0;
    while i < |records|
      invariant 0 <= i <= |records|
      invariant items == ReceiptItems(records[..i])
    {
      assert records[..i + 1][..i] == records[..i];
      var r := records[i];
      if r.ProductItem? {
        items := items + [ReceiptItem(r.quantity, RubValue(r.price))];
      } else if r.GiftItem? {
        items := items + [ReceiptItem(1, RubValue(r.price))];
      }
      i := i + 1;
    }
    assert records[..i] == records;
  }

  /**
   * `create_stripe_checkout_session`: builds the line items from the cart and,
   * when the SDK returns a session, stores its payment intent and the provider
   * on the order with one save. When the SDK raises, the order is untouched.
   */
  method CreateStripeCheckoutSession(store: OrderStore, orderId: nat, cart: Cart, cat: Catalog, sdk: SdkResult)
    returns (created: bool, lineItems: seq<StripeLineItem>)
    requires store.Valid() && orderId in store.orders
    modifies store
    ensures store.Valid() && store.nextId == old(store.nextId)
    ensures lineItems == StripeLineItems(Records(cart.Doc(), cat))
    ensures created <==> sdk.Created?
    ensures created ==> store.orders == old(store.orders)[orderId :=
              Saved(old(store.orders)[orderId].(stripePaymentIntentId := sdk.reference, paymentProvider := Some(Stripe)))]
    ensures !created ==> store.orders == old(store.orders)
  {
    var records := cart.Items(cat);
    lineItems := BuildStripeLineItems(records);
    if sdk.Raised? {
      return false, lineItems;
    }
    var row := store.orders[orderId];
    store.Save(orderId, row.(stripePaymentIntentId := sdk.reference, paymentProvider := Some(Stripe)));
    created := true;
  }

  /** The body of `Payment.create`: amount, receipt, metadata and the idempotence key. */
  datatype YookassaRequest = YookassaRequest(amount: real, items: seq<ReceiptItem>, orderId: nat, userId: nat, idempotenceKey: string)

  /**
   * `create_yookassa_payment`: builds the receipt and the discounted rouble
   * amount and, when the SDK returns a payment, stores its id and the provider
   * on the order with one save. When the SDK raises, the order is untouched.
   */
  method CreateYookassaPayment(store: OrderStore, orderId: nat, cart: Cart, cat: Catalog, sdk: SdkResult)
    returns (created: bool, request: YookassaRequest)
    requires store.Valid() && orderId in store.orders
    modifies store
    ensures store.Valid() && store.nextId == old(store.nextId)
    ensures request == YookassaRequest(YookassaAmount(old(store.orders)[orderId]), ReceiptItems(Records(cart.Doc(), cat)),
                                       orderId, old(store.orders)[orderId].userId, NatToString(orderId))
    ensures created <==> sdk.Created?
    ensures created ==> store.orders == old(store.orders)[orderId :=
              Saved(old(store.orders)[orderId].(yookassaPaymentId := sdk.reference, paymentProvider := Some(Yookassa)))]
    ensures !created ==> store.orders == old(store.orders)
  {
    var records := cart.Items(cat);
    var items := BuildReceiptItems(records);
    var row := store.orders[orderId];
    var total := DiscountedTotal(Some(row.totalPrice), row.discountPercentage);
    request := YookassaRequest(RubValue(total), items, orderId, row.userId, NatToString(orderId));
    if sdk.Raised? {
      return false, request;
    }
    store.Save(orderId, row.(yookassaPaymentId := sdk.reference, paymentProvider := Some(Yookassa)));
    created := true;
  }

  // ---------------------------------------------------------------------------
  // Finding the order a callback names

  /**
   * `Order.objects.get(id=...)` with a raw id: a missing id matches nothing, a
   * non-numeric one makes the lookup raise ValueError.
   */
  datatype Lookup = Missing | Malformed | Found(id: nat)

  function LookupOrder(orders: map<nat, Order>, idField: Option<string>): (l: Lookup)
    ensures l.Found? <==> idField.Some? && ParseNat(idField.value).Some? && ParseNat(idField.value).value in orders
    ensures l.Found? ==> l.id in orders && ParseNat(idField.value) == Some(l.id)
    ensures l.Malformed? <==> idField.Some? && ParseNat(idField.value).None?
  {
    match idField
    case None => Missing
    case Some(s) =>
      match ParseNat(s)
      case None => Malformed
      case Some(n) => if n in orders then Found(n) else Missing
  }

  /** The id a payment carries in its metadata (`order.id`, as a string) finds that order again. */
  lemma LookupFindsOwnId(orders: map<nat, Order>, id: nat)
    ensures LookupOrder(orders, Some(NatToString(id))) == (if id in orders then Found(id) else Missing)
  {
    ParseNatToString(id);
  }

  /** `get(id=order_id, user_id=user_id)`: both ids must parse, and the order must belong to that user. */
  function LookupOwnedOrder(orders: map<nat, Order>, orderId: string, userId: string): (l: Lookup)
    ensures l.Found? ==> l.id in orders && ParseNat(orderId) == Some(l.id) && Some(orders[l.id].userId) == ParseNat(userId)
    ensures l.Malformed? <==> ParseNat(orderId).None? || ParseNat(userId).None?
    ensures (ParseNat(orderId).Some? && ParseNat(userId).Some? && ParseNat(orderId).value in orders
             && Some(orders[ParseNat(orderId).value].userId) == ParseNat(userId))
            ==> l == Found(ParseNat(orderId).value)
  {
    match (ParseNat(orderId), ParseNat(userId))
    case (Some(n), Some(u)) => if n in orders && orders[n].userId == u then Found(n) else Missing
    case _ => Malformed
  }

  lemma LookupOwnedFindsOwnIds(orders: map<nat, Order>, id: nat)
    requires id in orders
    ensures LookupOwnedOrder(orders, NatToString(id), NatToString(orders[id].userId)) == Found(id)
  {
    ParseNatToString(id);
    ParseNatToString(orders[id].userId);
  }

  /** Python truthiness of an optional string. */
  predicate Falsy(v: Option<string>) {
    v.None? || v.value == ""
  }

  // ---------------------------------------------------------------------------
  // Stripe webhook

  /** What `stripe.Webhook.construct_event` made of the request. */
  datatype StripeEvent =
    | InvalidPayload
    | InvalidSignature
    | Event(kind: string, orderId: Option<string>, paymentIntent: Option<string>)

  /**
   * `stripe_webhook`: 400 for a payload or signature the SDK rejects; on
   * `checkout.session.completed` the named order becomes processing with the
   * event's payment intent (whatever its status was, and again on a replay),
   * and the request session's cart and promo keys are cleared; 404 when no
   * order has that id. Other events are acknowledged with 200.
   */
  method StripeWebhook(store: OrderStore, cart: Cart, session: PromoSession, event: StripeEvent) returns (code: int)
    requires store.Valid() && cart.Valid()
    modifies store, cart, session
    ensures store.Valid() && cart.Valid() && store.nextId == old(store.nextId)
    ensures !event.Event? ==> code == 400 && unchanged(store, cart, session)
    ensures event.Event? && event.kind != "checkout.session.completed" ==> code == 200 && unchanged(store, cart, session)
    ensures event.Event? && event.kind == "checkout.session.completed" ==>
              match LookupOrder(old(store.orders), event.orderId)
              case Missing => code == 404 && unchanged(store, cart, session)
              case Malformed => code == 500 && unchanged(store, cart, session)
              case Found(id) =>
                code == 200 &&
                store.orders == old(store.orders)[id := Saved(old(store.orders)[id].(status := Processing, stripePaymentIntentId := event.paymentIntent))] &&
                cart.Doc() == Empty &&
                session.promoCode == None && session.discountPercentage == None && session.promoMessage == None
  {
    if !event.Event? {
      return 400;
    }
    if event.kind != "checkout.session.completed" {
      return 200;
    }
    var lookup := LookupOrder(store.orders, event.orderId);
    match lookup {
      case Missing => return 404;
      case Malformed => return 500;
      case Found(id) =>
        var row := store.orders[id];
        store.Save(id, row.(status := Processing, stripePaymentIntentId := event.paymentIntent));
        cart.Clear();
        session.ForgetPromo();
        return 200;
    }
  }

  // ---------------------------------------------------------------------------
  // YooKassa webhook

  /** The notification body: malformed JSON, or the fields the handler reads (`None` when absent). */
  datatype YookassaNotification =
    | InvalidJson
    | Notification(event: Option<string>, paymentId: Option<string>, paymentStatus: Option<string>,
                   orderId: Option<string>, userId: Option<string>)

  /** What a notification does to the order it names. */
  datatype Transition = NoChange | ToProcessing | ToCancelled

  /**
   * A succeeded payment moves any order not already processing to processing,
   * a canceled one any order not already cancelled to cancelled; everything
   * else leaves the order alone.
   */
  function YookassaTransition(current: Status, event: Option<string>, paymentStatus: Option<string>): (t: Transition)
    ensures t == ToProcessing <==> event == Some("payment.succeeded") && paymentStatus == Some("succeeded") && current != Processing
    ensures t == ToCancelled <==> event == Some("payment.canceled") && paymentStatus == Some("canceled") && current != Cancelled
  {
    if event == Some("payment.succeeded") then
      if paymentStatus == Some("succeeded") && current != Processing then ToProcessing else NoChange
    else if event == Some("payment.canceled") then
      if paymentStatus == Some("canceled") && current != Cancelled then ToCancelled else NoChange
    else NoChange
  }

  function StatusAfter(current: Status, t: Transition): Status {
    match t
    case NoChange => current
    case ToProcessing => Processing
    case ToCancelled => Cancelled
  }

  /** Delivering the same notification again changes nothing. */
  lemma YookassaReplayIsNoOp(current: Status, event: Option<string>, paymentStatus: Option<string>)
    ensures YookassaTransition(StatusAfter(current, YookassaTransition(current, event, paymentStatus)), event, paymentStatus) == NoChange
  {
  }

  /**
   * `yookassa_webhook` (POST only): 400 for malformed JSON, for a falsy
   * `order_id` or `user_id` in the metadata, or when no order has that id and
   * user; 500 when an id is not numeric. Otherwise 200, applying
   * `YookassaTransition`: to processing stores the payment id and clears the
   * request session's cart and promo keys; to cancelled changes only the status.
   */
  method YookassaWebhook(store: OrderStore, cart: Cart, session: PromoSession, note: YookassaNotification) returns (code: int)
    requires store.Valid() && cart.Valid()
    modifies store, cart, session
    ensures store.Valid() && cart.Valid() && store.nextId == old(store.nextId)
    ensures note.InvalidJson? ==> code == 400 && unchanged(store, cart, session)
    ensures note.Notification? && (Falsy(note.orderId) || Falsy(note.userId)) ==> code == 400 && unchanged(store, cart, session)
    ensures note.Notification? && !Falsy(note.orderId) && !Falsy(note.userId) ==>
              match LookupOwnedOrder(old(store.orders), note.orderId.value, note.userId.value)
              case Missing => code == 400 && unchanged(store, cart, session)
              case Malformed => code == 500 && unchanged(store, cart, session)
              case Found(id) =>
                var o := old(store.orders)[id];
                code == 200 &&
                match YookassaTransition(o.status, note.event, note.paymentStatus)
                case NoChange => unchanged(store, cart, session)
                case ToProcessing =>
                  store.orders == old(store.orders)[id := Saved(o.(status := Processing, yookassaPaymentId := note.paymentId))] &&
                  cart.Doc() == Empty &&
                  session.promoCode == None && session.discountPercentage == None && session.promoMessage == None
                case ToCancelled =>
                  store.orders == old(store.orders)[id := Saved(o.(status := Cancelled))] && unchanged(cart, session)
  {
    if note.InvalidJson? {
      return 400;
    }
    if Falsy(note.orderId) || Falsy(note.userId) {
      return 400;
    }
    var lookup := LookupOwnedOrder(store.orders, note.orderId.value, note.userId.value);
    match lookup {
      case Missing => return 400;
      case Malformed => return 500;
      case Found(id) =>
        var row := store.orders[id];
        if note.event == Some("payment.succeeded") {
          if note.paymentStatus == Some("succeeded") {
            if row.status == Processing {
              return 200;
            }
            store.Save(id, row.(status := Processing, yookassaPaymentId := note.paymentId));
            cart.Clear();
            session.ForgetPromo();
          }
        } else if note.event == Some("payment.canceled") {
          if note.paymentStatus == Some("canceled") {
            if row.status == Cancelled {
              return 200;
            }
            store.Save(id, row.(status := Cancelled));
          }
        }
        return 200;
    }
  }

  // ---------------------------------------------------------------------------
  // Return pages

  /** What `Payment.find_one` reported for the stored payment id, or that it raised. */
  datatype ProviderCheck = CheckFailed | Reported(status: string)

  /** The outcome of a return page. */
  datatype ReturnPage =
    | SuccessPage(orderId: nat)
    | PendingPage(orderId: nat)
    | CancelPage(orderId: nat)
    | CancelRedirect
    | CheckoutRedirect
    | NotFoundPage
    | ServerError

  /**
   * The status `yookassa_success` leaves an order in: processing and cancelled
   * orders are settled; otherwise, with a stored payment id, the provider's
   * `succeeded` gives processing and `canceled`/`failed` give cancelled.
   */
  function ReturnStatus(current: Status, paymentId: Option<string>, check: ProviderCheck): Status {
    if current == Processing || current == Cancelled || Falsy(paymentId) then current
    else if check == Reported("succeeded") then Processing
    else if check == Reported("canceled") || check == Reported("failed") then Cancelled
    else current
  }

  /** A processing or cancelled order is never moved by the return page. */
  lemma ReturnStatusKeepsSettled(current: Status, paymentId: Option<string>, check: ProviderCheck)
    requires current == Processing || current == Cancelled
    ensures ReturnStatus(current, paymentId, check) == current
  {
  }

  /**
   * The return page changes a status only for an order with a stored payment id
   * that is neither processing nor cancelled, and it moves it to processing
   * exactly when the provider reports `succeeded`.
   */
  lemma ReturnStatusMoves(current: Status, paymentId: Option<string>, check: ProviderCheck)
    ensures ReturnStatus(current, paymentId, check) != current ==>
              !Falsy(paymentId) && current != Processing && current != Cancelled &&
              (ReturnStatus(current, paymentId, check) == Processing <==> check == Reported("succeeded"))
  {
  }

  /** A shipped or delivered order whose payment the provider reports as succeeded is moved back to processing. */
  lemma ReturnPageReopensShipped(paymentId: string)
    requires paymentId != ""
    ensures ReturnStatus(Shipped, Some(paymentId), Reported("succeeded")) == Processing
    ensures ReturnStatus(Delivered, Some(paymentId), Reported("succeeded")) == Processing
  {
  }

  /**
   * `yookassa_success`: without an `order_id` the view reaches the final
   * render with `order` unbound and fails (500). With one, the order's status
   * becomes `ReturnStatus(...)`, saved only when it changes.
   */
  method YookassaSuccess(store: OrderStore, orderIdParam: Option<string>, check: ProviderCheck) returns (page: ReturnPage)
    requires store.Valid()
    modifies store
    ensures store.Valid() && store.nextId == old(store.nextId)
    ensures Falsy(orderIdParam) ==> page == ServerError && unchanged(store)
    ensures !Falsy(orderIdParam) ==>
              match LookupOrder(old(store.orders), orderIdParam)
              case Missing => page == NotFoundPage && unchanged(store)
              case Malformed => page == ServerError && unchanged(store)
              case Found(id) =>
                var o := old(store.orders)[id];
                var s := ReturnStatus(o.status, o.yookassaPaymentId, check);
                (s == o.status ==> store.orders == old(store.orders)) &&
                (s != o.status ==> store.orders == old(store.orders)[id := Saved(o.(status := s))]) &&
                (s == Processing ==> page == SuccessPage(id)) &&
                (s == Cancelled ==> page == CancelRedirect) &&
                (s != Processing && s != Cancelled ==> page == PendingPage(id))
  {
    if Falsy(orderIdParam) {
      return ServerError;
    }
    var lookup := LookupOrder(store.orders, orderIdParam);
    match lookup {
      case Missing => return NotFoundPage;
      case Malformed => return ServerError;
      case Found(id) =>
        var row := store.orders[id];
        if row.status == Processing {
          return SuccessPage(id);
        } else if row.status == Cancelled {
          return CancelRedirect;
        }
        if !Falsy(row.yookassaPaymentId) {
          if check.Reported? {
            if check.status == "succeeded" {
              store.Save(id, row.(status := Processing));
              return SuccessPage(id);
            } else if check.status == "canceled" || check.status == "failed" {
              store.Save(id, row.(status := Cancelled));
              return CancelRedirect;
            }
          }
        }
        return PendingPage(id);
    }
  }

  /**
   * `stripe_cancel`, and `yookassa_cancel`, which is the same code: the named
   * order becomes cancelled whatever its status, with one save; without an
   * `order_id` the user is sent back to checkout.
   */
  method CancelReturn(store: OrderStore, orderIdParam: Option<string>) returns (page: ReturnPage)
    requires store.Valid()
    modifies store
    ensures store.Valid() && store.nextId == old(store.nextId)
    ensures Falsy(orderIdParam) ==> page == CheckoutRedirect && unchanged(store)
    ensures !Falsy(orderIdParam) ==>
              match LookupOrder(old(store.orders), orderIdParam)
              case Missing => page == NotFoundPage && unchanged(store)
              case Malformed => page == ServerError && unchanged(store)
              case Found(id) =>
                page == CancelPage(id) &&
                store.orders == old(store.orders)[id := Saved(old(store.orders)[id].(status := Cancelled))]
  {
    if Falsy(orderIdParam) {
      return CheckoutRedirect;
    }
    var lookup := LookupOrder(store.orders, orderIdParam);
    match lookup {
      case Missing => return NotFoundPage;
      case Malformed => return ServerError;
      case Found(id) =>
        var row := store.orders[id];
        store.Save(id, row.(status := Cancelled));
        return CancelPage(id);
    }
  }

  // ---------------------------------------------------------------------------
  // Callback sequences

  /**
   * A `checkout.session.completed` event delivered twice saves the order twice
   * and clears the cart both times: the Stripe webhook has no duplicate guard.
   */
  method StripeWebhookDeliveredTwice(store: OrderStore, cart: Cart, session: PromoSession, id: nat, intent: Option<string>)
    returns (first: int, second: int)
    requires store.Valid() && cart.Valid() && id in store.orders
    modifies store, cart, session
    ensures first == 200 && second == 200
    ensures id in store.orders && store.orders[id].status == Processing
    ensures store.orders[id].writes == old(store.orders)[id].writes + 2
  {
    var event := Event("checkout.session.completed", Some(NatToString(id)), intent);
    LookupFindsOwnId(store.orders, id);
    first := StripeWebhook(store, cart, session, event);
    LookupFindsOwnId(store.orders, id);
    second := StripeWebhook(store, cart, session, event);
  }

  /** The same YooKassa notification delivered twice: the second delivery is a 200 that changes nothing. */
  method YookassaWebhookDeliveredTwice(store: OrderStore, cart: Cart, session: PromoSession, note: YookassaNotification)
    returns (first: int, second: int)
    requires store.Valid() && cart.Valid()
    requires note.Notification? && !Falsy(note.orderId) && !Falsy(note.userId)
    requires LookupOwnedOrder(store.orders, note.orderId.value, note.userId.value).Found?
    modifies store, cart, session
    ensures first == 200 && second == 200
    ensures var id := LookupOwnedOrder(old(store.orders), note.orderId.value, note.userId.value).id;
            var o := old(store.orders)[id];
            var t := YookassaTransition(o.status, note.event, note.paymentStatus);
            id in store.orders && store.orders[id].status == StatusAfter(o.status, t) &&
            store.orders[id].writes == o.writes + (if t == NoChange then 0 else 1)
  {
    first := YookassaWebhook(store, cart, session, note);
    ghost var afterFirst := store.orders;
    second := YookassaWebhook(store, cart, session, note);
    assert store.orders == afterFirst by {
      var id := LookupOwnedOrder(afterFirst, note.orderId.value, note.userId.value).id;
      YookassaReplayIsNoOp(old(store.orders)[id].status, note.event, note.paymentStatus);
    }
  }
}
