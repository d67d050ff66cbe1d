/**
 * The order rows (orders/models.py): Order with its status and provider
 * choices, OrderItem, OrderSample and OrderGift, the discounted-total
 * arithmetic, and the orders table as a mutable store of row values.
 */
module OrderModels {
  import opened Wrappers
  import opened Decimals

  /** STATUS_CHOICES; a new order is `Pending`. */
  datatype Status = Pending | Processing | Shipped | Delivered | Cancelled

  const DefaultStatus: Status := Pending

  /** The value stored in the `status` column. */
  function StatusCode(s: Status): string {
    match s
    case Pending => "pending"
    case Processing => "processing"
    case Shipped => "shipped"
    case Delivered => "delivered"
    case Cancelled => "cancelled"
  }

  /** The choice a stored `status` string stands for; `None` outside the five choices. */
  function ParseStatus(code: string): Option<Status> {
    if code == "pending" then Some(Pending)
    else if code == "processing" then Some(Processing)
    else if code == "shipped" then Some(Shipped)
    else if code == "delivered" then Some(Delivered)
    else if code == "cancelled" then Some(Cancelled)
    else None
  }

  /** Each status is stored under its own code and read back as itself. */
  lemma StatusCodeRoundTrip(s: Status)
    ensures ParseStatus(StatusCode(s)) == Some(s)
    ensures forall t: Status :: StatusCode(t) == StatusCode(s) ==> t == s
  {
  }

  /** PAYMENT_PROVIDER_CHOICES; the column is nullable, so an order's provider is an `Option<Provider>`. */
  datatype Provider = Stripe | Yookassa

  function ProviderCode(p: Provider): string {
    match p
    case Stripe => "stripe"
    case Yookassa => "yookassa"
  }

  function ParseProvider(code: string): Option<Provider> {
    if code == "stripe" then Some(Stripe) else if code == "yookassa" then Some(Yookassa) else None
  }

  lemma ProviderCodeRoundTrip(p: Provider)
    ensures ParseProvider(ProviderCode(p)) == Some(p)
  {
  }

  /** An OrderItem row. */
  datatype OrderItem = OrderItem(perfumeId: nat, capacityId: nat, quantity: int, price: real) {
    /** `get_total_price`: the row's price times its quantity. */
    function TotalPrice(): (total: real)
      ensures quantity == 0 ==> total == 0.0
      ensures quantity == 1 ==> total == price
      ensures quantity >= 0 && price >= 0.0 ==> total >= 0.0
    {
      price * quantity as real
    }
  }

  /** An OrderSample row. */
  datatype OrderSample = OrderSample(sampleId: nat)

  /** An OrderGift row. */
  datatype OrderGift = OrderGift(giftId: nat, price: real)

  /**
   * An Order row with its child rows. Billing and shipping fields are not
   * modelled. `writes` counts the row's `create`/`save` calls: each one also
   * stamps `updated_at`, so a handler that leaves `writes` alone did not touch
   * the row.
   */
  datatype Order = Order(
    userId: nat,
    specialInstructions: string,
    promoCode: Option<string>,
    discountPercentage: real,
    totalPrice: real,
    status: Status,
    paymentProvider: Option<Provider>,
    stripePaymentIntentId: Option<string>,
    yookassaPaymentId: Option<string>,
    items: seq<OrderItem>,
    samples: seq<OrderSample>,
    gifts: seq<OrderGift>,
    writes: nat)

  /** The row after one more `save()`. */
  function Saved(o: Order): Order {
    o.(writes := o.writes + 1)
  }

  /**
   * `Order.get_discounted_total`: 0 without a total; with a positive discount
   * `round(total * (1 - d/100), 2)`; otherwise `round(total, 2)`.
   */
  function DiscountedTotal(totalPrice: Option<real>, discountPercentage: real): (r: real)
    ensures TwoPlaces(r)
    ensures totalPrice.None? ==> r == 0.0
    ensures totalPrice.Some? && discountPercentage > 0.0 ==>
            -0.005 <= r - PercentOff(totalPrice.value, discountPercentage) <= 0.005
    ensures totalPrice.Some? && discountPercentage <= 0.0 ==> -0.005 <= r - totalPrice.value <= 0.005
  {
    match totalPrice
    case None => 0.0
    case Some(total) =>
      if discountPercentage > 0.0 then Round2(PercentOff(total, discountPercentage)) else Round2(total)
  }

  /** Without a discount the charge is the stored two-place total itself. */
  lemma DiscountedTotalWithoutDiscount(total: real, discountPercentage: real)
    requires TwoPlaces(total) && discountPercentage <= 0.0
    ensures DiscountedTotal(Some(total), discountPercentage) == total
  {
    Round2OfTwoPlaces(total);
  }

  /** Rounding to two places cannot leave a range whose ends have two places. */
  lemma Round2WithinTwoPlaceBounds(x: real, lo: real, hi: real)
    requires TwoPlaces(lo) && TwoPlaces(hi) && lo <= x <= hi
    ensures lo <= Round2(x) <= hi
  {
    var n := RoundHalfEven(x * 100.0);
    var l, h := (lo * 100.0).Floor, (hi * 100.0).Floor;
    assert l as real <= x * 100.0 <= h as real;
    assert l <= n <= h;
    assert Round2(x) == n as real / 100.0;
  }

  /**
   * For a non-negative two-place total and 0 < d <= 100 the charge lies in
   * [0, total], and a 100% code makes it 0.
   */
  lemma DiscountedTotalWithinTotal(total: real, discountPercentage: real)
    requires TwoPlaces(total) && 0.0 <= total && 0.0 < discountPercentage <= 100.0
    ensures 0.0 <= DiscountedTotal(Some(total), discountPercentage) <= total
    ensures discountPercentage == 100.0 ==> DiscountedTotal(Some(total), discountPercentage) == 0.0
  {
    var x := PercentOff(total, discountPercentage);
    assert TwoPlaces(0.0);
    Round2WithinTwoPlaceBounds(x, 0.0, total);
    if discountPercentage == 100.0 {
      Round2WithinTwoPlaceBounds(x, 0.0, 0.0);
    }
  }

  /** The orders table. Ids come from a sequence that never hands out an id twice. */
  class OrderStore {
    var orders: map<nat, Order>
    var nextId: nat

    ghost predicate Valid()
      reads this
    {
      && 1 <= nextId
      && forall id :: id in orders ==> 1 <= id < nextId
    }

    constructor ()
      ensures Valid() && orders == map[] && nextId == 1
    {
      orders, nextId := map[], 1;
    }

    /** `Order.objects.create(...)`: the row gets the next id and counts one write. */
    method Create(row: Order) returns (id: nat)
      requires Valid()
      modifies this
      ensures Valid()
      ensures id == old(nextId) && nextId == old(nextId) + 1
      ensures id !in old(orders) && orders == old(orders)[id := row.(writes := 1)]
    {
      id := nextId;
      orders := orders[id := row.(writes := 1)];
      nextId := nextId + 1;
    }

    /** `order.save()` after assigning the fields of `row`. */
    method Save(id: nat, row: Order)
      requires Valid() && id in orders
      modifies this
      ensures Valid() && nextId == old(nextId)
      ensures orders == old(orders)[id := Saved(row.(writes := old(orders)[id].writes))]
    {
      orders := orders[id := Saved(row.(writes := orders[id].writes))];
    }

    /** `order.delete()`; the child rows go with it (on_delete=CASCADE). */
    method Delete(id: nat)
      requires Valid()
      modifies this
      ensures Valid() && nextId == old(nextId)
      ensures orders == old(orders) - {id}
    {
      orders := orders - {id};
    }

    /** `OrderItem.objects.create(order=...)`: a child row, the order row itself is not written. */
    method AddItem(id: nat, item: OrderItem)
      requires Valid() && id in orders
      modifies this
      ensures Valid() && nextId == old(nextId)
      ensures orders == old(orders)[id := old(orders)[id].(items := old(orders)[id].items + [item])]
    {
      orders := orders[id := orders[id].(items := orders[id].items + [item])];
    }

    /** `OrderSample.objects.create(order=...)`. */
    method AddSample(id: nat, sample: OrderSample)
      requires Valid() && id in orders
      modifies this
      ensures Valid() && nextId == old(nextId)
      ensures orders == old(orders)[id := old(orders)[id].(samples := old(orders)[id].samples + [sample])]
    {
      orders := orders[id := orders[id].(samples := orders[id].samples + [sample])];
    }

    /** `OrderGift.objects.create(order=...)`. */
    method AddGift(id: nat, gift: OrderGift)
      requires Valid() && id in orders
      modifies this
      ensures Valid() && nextId == old(nextId)
      ensures orders == old(orders)[id := old(orders)[id].(gifts := old(orders)[id].gifts + [gift])]
    {
      orders := orders[id := orders[id].(gifts := orders[id].gifts + [gift])];
    }
  }
}
