/**
 * The checkout view (orders/views.py): the empty-cart guard, resolving the
 * promo code kept in the session, applying a new code, and placing an order:
 * one Order row with the cart total and discount, one child row per cart
 * record, then the payment provider's session, with the order deleted again
 * when the provider raises.
 *
 * Form validation is a parameter (`formValid`); billing and shipping fields
 * are not modelled.
 */
module OrderViews {
  import opened Wrappers
  import opened Decimals
  import opened Catalogs
  import opened CartModel
  import opened OrderModels
  import opened Sessions
  import opened Payment
  import opened CartViews

  // ---------------------------------------------------------------------------
  // Promo codes

  /** The session's code when it still names an active promo code. */
  function ActiveCode(code: Option<string>, cat: Catalog): (active: Option<string>)
    ensures active.Some? <==> code.Some? && code.value in cat.promos
    ensures active.Some? ==> active == code
  {
    if code.Some? && code.value in cat.promos then code else None
  }

  /** The discount the session's code is worth: its percentage when active, 0 otherwise. */
  function PromoDiscount(code: Option<string>, cat: Catalog): (discount: real)
    ensures ActiveCode(code, cat).None? ==> discount == 0.0
    ensures ActiveCode(code, cat).Some? ==> discount == cat.promos[code.value]
  {
    if code.Some? && code.value in cat.promos then cat.promos[code.value] else 0.0
  }

  /**
   * The session-promo block at the top of `checkout`: an active code yields its
   * discount; a stale one is dropped together with its percentage.
   */
  method ResolveSessionPromo(session: PromoSession, cat: Catalog) returns (discount: real)
    modifies session
    ensures discount == PromoDiscount(old(session.promoCode), cat)
    ensures session.promoCode == ActiveCode(old(session.promoCode), cat)
    ensures ActiveCode(old(session.promoCode), cat).Some? || old(session.promoCode).None? ==> unchanged(session)
    ensures old(session.promoCode).Some? && ActiveCode(old(session.promoCode), cat).None? ==>
              session.discountPercentage == None && session.promoMessage == old(session.promoMessage)
  {
    discount := 0.0;
    if session.promoCode.Some? {
      var code := session.promoCode.value;
      if code in cat.promos {
        discount := cat.promos[code];
      } else {
        session.promoCode := None;
        session.discountPercentage := None;
      }
    }
  }

  // ---------------------------------------------------------------------------
  // Order rows from cart records

  /** `price or Decimal('0.00')`: a zero price is stored as zero, so the stored value is the record's. */
  function RowPrice(price: real): (stored: real)
    ensures stored == price
  {
    if price == 0.0 then 0.0 else price
  }

  /** The OrderItem a product record becomes. */
  function ItemRowOf(r: Record): seq<OrderItem> {
    if r.ProductItem? then [OrderItem(r.perfumeId, r.capacityId, r.quantity, RowPrice(r.price))] else []
  }

  /** The OrderSample a sample record becomes. */
  function SampleRowOf(r: Record): seq<OrderSample> {
    if r.SampleItem? then [OrderSample(r.sampleId)] else []
  }

  /** The OrderGift a gift record becomes. */
  function GiftRowOf(r: Record): seq<OrderGift> {
    if r.GiftItem? then [OrderGift(r.giftId, RowPrice(r.price))] else []
  }

  /** One OrderItem per product record, in iteration order. */
  function ItemRows(rs: seq<Record>): seq<OrderItem>
    decreases |rs|
  {
    if rs == [] then [] else ItemRows(rs[..|rs| - 1]) + ItemRowOf(rs[|rs| - 1])
  }

  /** One OrderSample per sample record. */
  function SampleRows(rs: seq<Record>): seq<OrderSample>
    decreases |rs|
  {
    if rs == [] then [] else SampleRows(rs[..|rs| - 1]) + SampleRowOf(rs[|rs| - 1])
  }

  /** One OrderGift per gift record. */
  function GiftRows(rs: seq<Record>): seq<OrderGift>
    decreases |rs|
  {
    if rs == [] then [] else GiftRows(rs[..|rs| - 1]) + GiftRowOf(rs[|rs| - 1])
  }

  /** Σ `get_total_price` over the item rows. */
  function ItemsTotal(items: seq<OrderItem>): real
    decreases |items|
  {
    if items == [] then 0.0 else ItemsTotal(items[..|items| - 1]) + items[|items| - 1].TotalPrice()
  }

  /** Σ price over the gift rows. */
  function GiftsTotal(gifts: seq<OrderGift>): real
    decreases |gifts|
  {
    if gifts == [] then 0.0 else GiftsTotal(gifts[..|gifts| - 1]) + gifts[|gifts| - 1].price
  }

  /** Every record becomes exactly one row, and a product record becomes the item row with its ids, quantity and price. */
  lemma {:induction false} RowsFollowRecords(rs: seq<Record>)
    ensures |ItemRows(rs)| + |SampleRows(rs)| + |GiftRows(rs)| == |rs|
    ensures forall r :: r in rs && r.ProductItem? ==> OrderItem(r.perfumeId, r.capacityId, r.quantity, r.price) in ItemRows(rs)
    ensures forall r :: r in rs && r.SampleItem? ==> OrderSample(r.sampleId) in SampleRows(rs)
    ensures forall r :: r in rs && r.GiftItem? ==> OrderGift(r.giftId, r.price) in GiftRows(rs)
    decreases |rs|
  {
    if rs != [] {
      var init := rs[..|rs| - 1];
      RowsFollowRecords(init);
      assert forall r :: r in rs ==> r in init || r == rs[|rs| - 1];
    }
  }

  lemma {:induction false} ItemsTotalAppend(a: seq<OrderItem>, b: seq<OrderItem>)
    requires |b| <= 1
    ensures ItemsTotal(a + b) == ItemsTotal(a) + ItemsTotal(b)
  {
    if b == [] {
      assert a + b == a;
    } else {
      assert (a + b)[..|a + b| - 1] == a;
    }
  }

  lemma {:induction false} GiftsTotalAppend(a: seq<OrderGift>, b: seq<OrderGift>)
    requires |b| <= 1
    ensures GiftsTotal(a + b) == GiftsTotal(a) + GiftsTotal(b)
  {
    if b == [] {
      assert a + b == a;
    } else {
      assert (a + b)[..|a + b| - 1] == a;
    }
  }

  /** The item rows' totals plus the gift rows' prices add up to the cart total the order stores. */
  lemma {:induction false} RowsKeepCartTotal(rs: seq<Record>)
    ensures ItemsTotal(ItemRows(rs)) + GiftsTotal(GiftRows(rs)) == Total(rs)
    decreases |rs|
  {
    if rs != [] {
      var init := rs[..|rs| - 1];
      var r := rs[|rs| - 1];
      RowsKeepCartTotal(init);
      assert Total(rs) == Total(init) + r.LineTotal();
      ItemsTotalAppend(ItemRows(init), ItemRowOf(r));
      GiftsTotalAppend(GiftRows(init), GiftRowOf(r));
      RecordRowsTotal(r);
    }
  }

  /** The rows one record becomes cost what the record does. */
  lemma RecordRowsTotal(r: Record)
    ensures ItemsTotal(ItemRowOf(r)) + GiftsTotal(GiftRowOf(r)) == r.LineTotal()
  {
    if r.ProductItem? {
      assert ItemsTotal(ItemRowOf(r)) == ItemRowOf(r)[0].TotalPrice();
    } else if r.GiftItem? {
      assert GiftsTotal(GiftRowOf(r)) == r.price;
    }
  }

  /**
   * The order `checkout` creates for a cart: the cart's instructions and
   * total, the given discount, the session code when still active (attached
   * with a second save), status pending, no provider yet, and the child rows.
   */
  function NewOrderRow(userId: nat, d: CartDoc, cat: Catalog, code: Option<string>, discount: real): Order {
    var rs := Records(d, cat);
    Order(userId, d.instructions, ActiveCode(code, cat), discount, TotalPrice(d, cat), DefaultStatus,
          None, None, None, ItemRows(rs), SampleRows(rs), GiftRows(rs),
          if ActiveCode(code, cat).Some? then 2 else 1)
  }

  /** The new order's child rows add up to the total it stores. */
  lemma NewOrderRowTotals(userId: nat, d: CartDoc, cat: Catalog, code: Option<string>, discount: real)
    ensures var o := NewOrderRow(userId, d, cat, code, discount);
            ItemsTotal(o.items) + GiftsTotal(o.gifts) == o.totalPrice
  {
    RowsKeepCartTotal(Records(d, cat));
  }

  /**
   * For two-place prices the Stripe session charges the order's full total in
   * cents whatever its discount, while the YooKassa payment asks for the
   * discounted total in roubles.
   */
  lemma ProviderAmounts(userId: nat, d: CartDoc, cat: Catalog, code: Option<string>, discount: real)
    requires PricesInCents(Records(d, cat))
    ensures var o := NewOrderRow(userId, d, cat, code, discount);
            && StripeCharge(StripeLineItems(Records(d, cat))) as real == o.totalPrice * 100.0
            && YookassaAmount(o) == DiscountedTotal(Some(o.totalPrice), discount) * EurToRubRate
            && ReceiptSum(ReceiptItems(Records(d, cat))) == o.totalPrice * EurToRubRate
  {
    StripeChargeIsCartTotal(Records(d, cat));
    ReceiptSumIsCartTotal(Records(d, cat));
  }

  /** `Order.objects.create(...)` and, when the session's code is still active, its attachment with a second save. */
  method CreateOrderRow(store: OrderStore, cart: Cart, session: PromoSession, cat: Catalog, userId: nat, total: real, discount: real)
    returns (id: nat)
    requires store.Valid()
    modifies store
    ensures store.Valid() && id == old(store.nextId) && store.nextId == id + 1
    ensures store.orders == old(store.orders)[id :=
              Order(userId, cart.specialInstructions, ActiveCode(session.promoCode, cat), discount, total, DefaultStatus,
                    None, None, None, [], [], [], if ActiveCode(session.promoCode, cat).Some? then 2 else 1)]
  {
    var created := Order(userId, cart.specialInstructions, None, discount, total, DefaultStatus,
                         None, None, None, [], [], [], 0);
    id := store.Create(created);
    if session.promoCode.Some? && session.promoCode.value in cat.promos {
      store.Save(id, store.orders[id].(promoCode := session.promoCode));
    }
  }

  /** The loop `for item in cart:` creating one child row per record. */
  method CopyRecords(store: OrderStore, id: nat, rs: seq<Record>)
    requires store.Valid() && id in store.orders
    modifies store
    ensures store.Valid() && store.nextId == old(store.nextId)
    ensures store.orders == old(store.orders)[id := old(store.orders)[id].(
              items := old(store.orders)[id].items + ItemRows(rs),
              samples := old(store.orders)[id].samples + SampleRows(rs),
              gifts := old(store.orders)[id].gifts + GiftRows(rs))]
  {
    ghost var o := store.orders[id];
    assert rs[..0] == [];
    assert o.items + [] == o.items && o.samples + [] == o.samples && o.gifts + [] == o.gifts;
    assert store.orders == store.orders[id := o];
    var i := 0;
    while i < |rs|
      invariant 0 <= i <= |rs|
      invariant store.Valid() && store.nextId == old(store.nextId)
      invariant store.orders == old(store.orders)[id := o.(items := o.items + ItemRows(rs[..i]),
                                  samples := o.samples + SampleRows(rs[..i]), gifts := o.gifts + GiftRows(rs[..i]))]
    {
      assert rs[..i + 1][..i] == rs[..i];
      assert ItemRows(rs[..i + 1]) == ItemRows(rs[..i]) + ItemRowOf(rs[i]);
      assert SampleRows(rs[..i + 1]) == SampleRows(rs[..i]) + SampleRowOf(rs[i]);
      assert GiftRows(rs[..i + 1]) == GiftRows(rs[..i]) + GiftRowOf(rs[i]);
      assert o.items + ItemRows(rs[..i + 1]) == o.items + ItemRows(rs[..i]) + ItemRowOf(rs[i]);
      assert o.samples + SampleRows(rs[..i + 1]) == o.samples + SampleRows(rs[..i]) + SampleRowOf(rs[i]);
      assert o.gifts + GiftRows(rs[..i + 1]) == o.gifts + GiftRows(rs[..i]) + GiftRowOf(rs[i]);
      CreateRecordRow(store, id, rs[i]);
      i := i + 1;
    }
    assert rs[..i] == rs;
  }

  /** Creating the order, attaching the promo and copying the cart's records into child rows. */
  method PlaceOrder(store: OrderStore, cart: Cart, session: PromoSession, cat: Catalog, userId: nat, total: real, discount: real)
    returns (id: nat)
    requires store.Valid() && total == TotalPrice(cart.Doc(), cat)
    modifies store
    ensures store.Valid() && id == old(store.nextId) && store.nextId == id + 1
    ensures store.orders == old(store.orders)[id := NewOrderRow(userId, cart.Doc(), cat, session.promoCode, discount)]
  {
    id := CreateOrderRow(store, cart, session, cat, userId, total, discount);
    var rs := cart.Items(cat);
    CopyRecords(store, id, rs);
    assert [] + ItemRows(rs) == ItemRows(rs);
    assert [] + SampleRows(rs) == SampleRows(rs);
    assert [] + GiftRows(rs) == GiftRows(rs);
  }

  /** The body of the row loop: the one child row a cart record becomes. */
  method CreateRecordRow(store: OrderStore, id: nat, r: Record)
    requires store.Valid() && id in store.orders
    modifies store
    ensures store.Valid() && store.nextId == old(store.nextId)
    ensures store.orders == old(store.orders)[id := old(store.orders)[id].(
              items := old(store.orders)[id].items + ItemRowOf(r),
              samples := old(store.orders)[id].samples + SampleRowOf(r),
              gifts := old(store.orders)[id].gifts + GiftRowOf(r))]
  {
    ghost var o := store.orders[id];
    assert o.items + [] == o.items && o.samples + [] == o.samples && o.gifts + [] == o.gifts;
    match r {
      case ProductItem(_, perfumeId, capacityId, quantity, price) =>
        store.AddItem(id, OrderItem(perfumeId, capacityId, quantity, RowPrice(price)));
      case SampleItem(_, sampleId) =>
        store.AddSample(id, OrderSample(sampleId));
      case GiftItem(_, giftId, price) =>
        store.AddGift(id, OrderGift(giftId, RowPrice(price)));
    }
  }

  // ---------------------------------------------------------------------------
  // The view

  datatype CheckoutRequest =
    | ShowCheckout
    | ApplyPromo(formValid: bool, code: string)
    | CreateOrder(formValid: bool, provider: Option<string>)

  datatype CheckoutReply =
    | EmptyCartRedirect
    | ServerFault
    | PromoSummary(summary: PriceSummary, message: string)
    | PaymentRedirect(orderId: nat)
    | PaymentFailed(summary: PriceSummary)
    | FormErrors(summary: PriceSummary)
    | CheckoutPage(summary: PriceSummary)

  function Summary(total: real, discount: real): PriceSummary {
    PriceSummary(total, discount, PercentOff(total, discount))
  }

  /**
   * The `apply_promo` branch: a valid form with an active code stores the code
   * and its percentage in the session; with an unknown or inactive code both
   * keys are dropped and the discount is 0; an invalid form keeps the
   * resolved discount. The summary shows the total with that discount taken off.
   */
  method ApplyPromoCode(session: PromoSession, cat: Catalog, total: real, discount: real, formValid: bool, code: string)
    returns (reply: CheckoutReply)
    modifies session
    ensures formValid && code in cat.promos ==>
              && session.promoCode == Some(code)
              && session.discountPercentage == Some(cat.promos[code])
              && session.promoMessage == old(session.promoMessage)
              && reply == PromoSummary(Summary(total, cat.promos[code]), PromoApplied)
    ensures formValid && code !in cat.promos ==>
              && session.promoCode == None && session.discountPercentage == None
              && session.promoMessage == old(session.promoMessage)
              && reply == PromoSummary(Summary(total, 0.0), PromoInvalid)
    ensures !formValid ==> unchanged(session) && reply == PromoSummary(Summary(total, discount), "")
  {
    var applied := discount;
    var message := "";
    if formValid {
      if code in cat.promos {
        applied := cat.promos[code];
        message := PromoApplied;
        session.promoCode := Some(code);
        session.discountPercentage := Some(applied);
      } else {
        message := PromoInvalid;
        session.promoCode := None;
        session.discountPercentage := None;
        applied := 0.0;
      }
    }
    return PromoSummary(Summary(total, applied), message);
  }

  /**
   * The `create_order` branch after a valid form: places the order, then
   * starts the chosen provider's payment (default "stripe"). On success the
   * cart is cleared; when the provider raises, the order is deleted again and
   * the cart kept; an unknown provider leaves the order in place, unpaid, and
   * the cart intact.
   */
  method PlaceOrderAndPay(cart: Cart, session: PromoSession, store: OrderStore, cat: Catalog, userId: nat,
                          total: real, discount: real, provider: Option<string>, sdk: SdkResult)
    returns (reply: CheckoutReply)
    requires cart.Valid() && store.Valid() && total == TotalPrice(cart.Doc(), cat)
    modifies cart, store
    ensures cart.Valid() && store.Valid()
    ensures var id := old(store.nextId);
            var row := NewOrderRow(userId, old(cart.Doc()), cat, session.promoCode, discount);
            var choice := provider.GetOr("stripe");
            && store.nextId == id + 1
            && (choice == "stripe" && sdk.Created? ==>
                  && store.orders == old(store.orders)[id := Saved(row.(stripePaymentIntentId := sdk.reference, paymentProvider := Some(Stripe)))]
                  && cart.Doc() == Empty && reply == PaymentRedirect(id))
            && (choice == "yookassa" && sdk.Created? ==>
                  && store.orders == old(store.orders)[id := Saved(row.(yookassaPaymentId := sdk.reference, paymentProvider := Some(Yookassa)))]
                  && cart.Doc() == Empty && reply == PaymentRedirect(id))
            && ((choice == "stripe" || choice == "yookassa") && sdk.Raised? ==>
                  && store.orders == old(store.orders) && unchanged(cart)
                  && reply == PaymentFailed(Summary(total, discount)))
            && (choice != "stripe" && choice != "yookassa" ==>
                  && store.orders == old(store.orders)[id := row] && unchanged(cart)
                  && reply == CheckoutPage(Summary(total, discount)))
  {
    var choice := provider.GetOr("stripe");
    var id := PlaceOrder(store, cart, session, cat, userId, total, discount);
    if choice == "stripe" {
      var created, _ := CreateStripeCheckoutSession(store, id, cart, cat, sdk);
      if created {
        cart.Clear();
        return PaymentRedirect(id);
      }
    } else if choice == "yookassa" {
      var created, _ := CreateYookassaPayment(store, id, cart, cat, sdk);
      if created {
        cart.Clear();
        return PaymentRedirect(id);
      }
    } else {
      return CheckoutPage(Summary(total, discount));
    }
    store.Delete(id);
    assert old(store.orders)[id := NewOrderRow(userId, old(cart.Doc()), cat, session.promoCode, discount)] - {id} == old(store.orders);
    return PaymentFailed(Summary(total, discount));
  }

  /**
   * `checkout`. `if not cart` calls `__len__`: 0 redirects to the cart, and a
   * negative length (reachable through quantity overrides) makes `bool()`
   * raise. Otherwise the session promo is resolved first, then the request's
   * branch runs: `ApplyPromoCode`, an order form (rejected when invalid,
   * otherwise `PlaceOrderAndPay` with the resolved discount), or the page.
   */
  method Checkout(cart: Cart, session: PromoSession, store: OrderStore, cat: Catalog, userId: nat,
                  request: CheckoutRequest, sdk: SdkResult)
    returns (reply: CheckoutReply)
    requires cart.Valid() && store.Valid()
    modifies cart, session, store
    ensures cart.Valid() && store.Valid()
    ensures Length(old(cart.Doc())) == 0 ==> reply == EmptyCartRedirect && unchanged(cart, session, store)
    ensures Length(old(cart.Doc())) < 0 ==> reply == ServerFault && unchanged(cart, session, store)
    ensures Length(old(cart.Doc())) > 0 && !(request.ApplyPromo? && request.formValid) ==>
              && session.promoCode == ActiveCode(old(session.promoCode), cat)
              && session.promoMessage == old(session.promoMessage)
              && (ActiveCode(old(session.promoCode), cat).None? && old(session.promoCode).Some? ==> session.discountPercentage == None)
              && (ActiveCode(old(session.promoCode), cat).Some? || old(session.promoCode).None? ==>
                    session.discountPercentage == old(session.discountPercentage))
    ensures Length(old(cart.Doc())) > 0 && request.ApplyPromo? ==>
              && unchanged(cart, store)
              && (request.formValid && request.code in cat.promos ==>
                    && session.promoCode == Some(request.code)
                    && session.discountPercentage == Some(cat.promos[request.code])
                    && reply == PromoSummary(Summary(TotalPrice(old(cart.Doc()), cat), cat.promos[request.code]), PromoApplied))
              && (request.formValid && request.code !in cat.promos ==>
                    && session.promoCode == None && session.discountPercentage == None
                    && reply == PromoSummary(Summary(TotalPrice(old(cart.Doc()), cat), 0.0), PromoInvalid))
              && (!request.formValid ==>
                    reply == PromoSummary(Summary(TotalPrice(old(cart.Doc()), cat), PromoDiscount(old(session.promoCode), cat)), ""))
    ensures Length(old(cart.Doc())) > 0 && request.ShowCheckout? ==>
              && unchanged(cart, store)
              && reply == CheckoutPage(Summary(TotalPrice(old(cart.Doc()), cat), PromoDiscount(old(session.promoCode), cat)))
    ensures Length(old(cart.Doc())) > 0 && request.CreateOrder? && !request.formValid ==>
              && unchanged(cart, store)
              && reply == FormErrors(Summary(TotalPrice(old(cart.Doc()), cat), PromoDiscount(old(session.promoCode), cat)))
    ensures Length(old(cart.Doc())) > 0 && request.CreateOrder? && request.formValid ==>
              var id := old(store.nextId);
              var discount := PromoDiscount(old(session.promoCode), cat);
              var row := NewOrderRow(userId, old(cart.Doc()), cat, old(session.promoCode), discount);
              var choice := request.provider.GetOr("stripe");
              && store.nextId == id + 1
              && (choice == "stripe" && sdk.Created? ==>
                    && store.orders == old(store.orders)[id := Saved(row.(stripePaymentIntentId := sdk.reference, paymentProvider := Some(Stripe)))]
                    && cart.Doc() == Empty && reply == PaymentRedirect(id))
              && (choice == "yookassa" && sdk.Created? ==>
                    && store.orders == old(store.orders)[id := Saved(row.(yookassaPaymentId := sdk.reference, paymentProvider := Some(Yookassa)))]
                    && cart.Doc() == Empty && reply == PaymentRedirect(id))
              && ((choice == "stripe" || choice == "yookassa") && sdk.Raised? ==>
                    && store.orders == old(store.orders) && unchanged(cart)
                    && reply == PaymentFailed(Summary(TotalPrice(old(cart.Doc()), cat), discount)))
              && (choice != "stripe" && choice != "yookassa" ==>
                    && store.orders == old(store.orders)[id := row] && unchanged(cart)
                    && reply == CheckoutPage(Summary(TotalPrice(old(cart.Doc()), cat), discount)))
  {
    var n := cart.Len();
    if n == 0 {
      return EmptyCartRedirect;
    } else if n < 0 {
      return ServerFault;
    }
    var total := cart.GetTotalPrice(cat);
    var discount := ResolveSessionPromo(session, cat);
    match request {
      case ShowCheckout =>
        return CheckoutPage(Summary(total, discount));
      case ApplyPromo(formValid, code) =>
        reply := ApplyPromoCode(session, cat, total, discount, formValid, code);
      case CreateOrder(formValid, provider) =>
        if !formValid {
          return FormErrors(Summary(total, discount));
        }
        assert NewOrderRow(userId, cart.Doc(), cat, session.promoCode, discount)
            == NewOrderRow(userId, cart.Doc(), cat, old(session.promoCode), discount);
        reply := PlaceOrderAndPay(cart, session, store, cat, userId, total, discount, provider, sdk);
    }
  }
}
