/**
 * The session cart (cart/cart.py).
 *
 * The session document holds four fields: `products`, a dict from
 * f"{perfume_id}_{capacity_id}" to {quantity, perfume_id, capacity_id, price};
 * `samples`, a list of at most two sample ids kept as strings; `gift_wrap`, the
 * raw value last passed to `set_gift_wrap` (or None); and
 * `special_instructions`. The class `Cart` below keeps these as fields; the
 * dict's insertion order, which iteration follows, is `productOrder`.
 * `CartDoc` is the same document as a value, and each operation is specified by
 * a function on it.
 */
module CartModel {
  import opened Wrappers
  import opened Ids
  import opened Decimals
  import opened Catalogs

  /** The cap on sample picks. */
  const MaxSamples: nat := 2

  /**
   * One `products` entry. The source stores the price as `str(Decimal)` and reads
   * it back with `Decimal(...)`, an exact round trip, so the number is kept.
   */
  datatype Line = Line(quantity: int, perfumeId: nat, capacityId: nat, price: real)

  /** The raw Python value in the `gift_wrap` slot: None, an int or a str. */
  datatype SlotValue = Null | Int(i: int) | Str(s: string)

  /** Python truthiness of the slot (`if self.cart['gift_wrap']:`). */
  predicate Truthy(v: SlotValue) {
    match v
    case Null => false
    case Int(i) => i != 0
    case Str(s) => s != ""
  }

  /** The gift id `Gift.objects.get(id=v)` looks for: an int as it is, a digit string coerced. */
  function SlotId(v: SlotValue): Option<nat> {
    match v
    case Null => None
    case Int(i) => if i >= 0 then Some(i) else None
    case Str(s) => ParseNat(s)
  }

  /** `str(v)`, as it appears in the gift record's key. */
  function SlotText(v: SlotValue): string {
    match v
    case Null => "None"
    case Int(i) => if i >= 0 then NatToString(i) else "-" + NatToString(-i)
    case Str(s) => s
  }

  function Max(a: int, b: int): int { if a >= b then a else b }

  /** The session document as a value. */
  datatype CartDoc = CartDoc(
    order: seq<string>,
    products: map<string, Line>,
    samples: seq<string>,
    giftWrap: SlotValue,
    instructions: string)

  /** The shape `__init__` creates and `clear` restores. */
  const Empty: CartDoc := CartDoc([], map[], [], Null, "")

  /**
   * What every cart operation keeps: the key order lists each products key once,
   * each entry sits under its own f"{perfume_id}_{capacity_id}" key, and at most
   * two distinct samples are held.
   */
  ghost predicate WellFormed(d: CartDoc) {
    && NoDuplicates(d.order)
    && (forall k :: k in d.products <==> k in d.order)
    && (forall k :: k in d.products ==> k == ProductKey(d.products[k].perfumeId, d.products[k].capacityId))
    && NoDuplicates(d.samples)
    && |d.samples| <= MaxSamples
  }

  /**
   * `_get_price`: the variant's own price when it has a truthy one, otherwise the
   * perfume's discounted price (also when there is no variant row).
   */
  function ResolvePrice(cat: Catalog, perfumeId: nat, capacityId: nat): (price: real)
    requires perfumeId in cat.perfumes
    ensures price == cat.perfumes[perfumeId].discountedPrice
            || ((perfumeId, capacityId) in cat.variants && cat.variants[(perfumeId, capacityId)].price == Price(price) && price != 0.0)
    ensures (perfumeId, capacityId) in cat.variants && cat.variants[(perfumeId, capacityId)].price.Price?
            && cat.variants[(perfumeId, capacityId)].price.amount != 0.0
            ==> price == cat.variants[(perfumeId, capacityId)].price.amount
  {
    if (perfumeId, capacityId) in cat.variants then
      match cat.variants[(perfumeId, capacityId)].price
      case Price(amount) => if amount != 0.0 then amount else cat.perfumes[perfumeId].discountedPrice
      case NoPrice => cat.perfumes[perfumeId].discountedPrice
    else cat.perfumes[perfumeId].discountedPrice
  }

  /** The cart methods, one constructor per method that changes the document. */
  datatype Op =
    | Add(perfumeId: nat, capacityId: nat, quantity: int, overrideQuantity: bool)
    | Remove(perfumeId: nat, capacityId: nat)
    | UpdateQuantity(perfumeId: nat, capacityId: nat, quantity: int)
    | AddSample(sampleId: nat)
    | ReplaceSample(sampleId: nat)
    | RemoveSample(sampleId: nat)
    | RemoveAllSamples
    | SetGiftWrap(value: SlotValue)
    | RemoveGiftWrap
    | SetSpecialInstructions(text: string)
    | Clear

  /** `add` is handed a perfume row, so its perfume exists; no other method needs the catalog. */
  predicate Applicable(op: Op, cat: Catalog) {
    op.Add? ==> op.perfumeId in cat.perfumes
  }

  /** The document after `add`. */
  function Added(d: CartDoc, cat: Catalog, p: nat, c: nat, q: int, overrideQuantity: bool): CartDoc
    requires p in cat.perfumes
  {
    var key := ProductKey(p, c);
    var line := if key in d.products then d.products[key] else Line(0, p, c, ResolvePrice(cat, p, c));
    var quantity := if overrideQuantity then q else Max(1, line.quantity + q);
    d.(order := if key in d.products then d.order else d.order + [key],
       products := d.products[key := line.(quantity := quantity)])
  }

  /** The document after any other cart method; none of them reads the catalog. */
  function Step(d: CartDoc, op: Op): CartDoc
    requires !op.Add?
  {
    match op
    case Remove(p, c) =>
      var key := ProductKey(p, c);
      if key in d.products then d.(order := RemoveFirst(d.order, key), products := d.products - {key}) else d
    case UpdateQuantity(p, c, q) =>
      var key := ProductKey(p, c);
      if key in d.products then d.(products := d.products[key := d.products[key].(quantity := q)]) else d
    case AddSample(id) =>
      var s := NatToString(id);
      if s !in d.samples && |d.samples| < MaxSamples then d.(samples := d.samples + [s]) else d
    case ReplaceSample(id) =>
      var s := NatToString(id);
      if s in d.samples then d
      else d.(samples := (if |d.samples| >= MaxSamples then d.samples[1..] else d.samples) + [s])
    case RemoveSample(id) =>
      var s := NatToString(id);
      if s in d.samples then d.(samples := RemoveFirst(d.samples, s)) else d
    case RemoveAllSamples => d.(samples := [])
    case SetGiftWrap(v) => d.(giftWrap := v)
    case RemoveGiftWrap => d.(giftWrap := Null)
    case SetSpecialInstructions(t) => d.(instructions := t)
    case Clear => Empty
  }

  /** The document after one cart method. */
  function Apply(d: CartDoc, op: Op, cat: Catalog): CartDoc
    requires Applicable(op, cat)
  {
    if op.Add? then Added(d, cat, op.perfumeId, op.capacityId, op.quantity, op.overrideQuantity) else Step(d, op)
  }

  predicate AllApplicable(ops: seq<Op>, cat: Catalog) {
    forall i :: 0 <= i < |ops| ==> Applicable(ops[i], cat)
  }

  function ApplyAll(d: CartDoc, ops: seq<Op>, cat: Catalog): CartDoc
    requires AllApplicable(ops, cat)
    decreases |ops|
  {
    if ops == [] then d else ApplyAll(Apply(d, ops[0], cat), ops[1..], cat)
  }

  // ---------------------------------------------------------------------------
  // Properties of the single operations

  /** `add` keeps the document well formed. */
  lemma AddedPreservesWellFormed(d: CartDoc, cat: Catalog, p: nat, c: nat, q: int, overrideQuantity: bool)
    requires WellFormed(d) && p in cat.perfumes
    ensures WellFormed(Added(d, cat, p, c, q, overrideQuantity))
  {
    var key := ProductKey(p, c);
    var r := Added(d, cat, p, c, q, overrideQuantity);
    if key !in d.products {
      assert key !in d.order;
      forall i, j | 0 <= i < j < |r.order| ensures r.order[i] != r.order[j] {
        if j == |d.order| { assert r.order[i] == d.order[i] && d.order[i] in d.order; }
      }
    }
  }

  /** Every other cart method keeps the document well formed. */
  lemma StepPreservesWellFormed(d: CartDoc, op: Op)
    requires WellFormed(d) && !op.Add?
    ensures WellFormed(Step(d, op))
  {
    match op
    case Remove(p, c) =>
      var key := ProductKey(p, c);
      RemoveFirstMembers(d.order, key);
    case RemoveSample(id) =>
      RemoveFirstMembers(d.samples, NatToString(id));
    case AddSample(id) =>
      var s := NatToString(id);
      if s !in d.samples && |d.samples| < MaxSamples {
        var r := d.samples + [s];
        forall i, j | 0 <= i < j < |r| ensures r[i] != r[j] {
          if j == |d.samples| { assert r[i] == d.samples[i] && d.samples[i] in d.samples; }
        }
      }
    case ReplaceSample(id) =>
      var s := NatToString(id);
      if s !in d.samples {
        var kept := if |d.samples| >= MaxSamples then d.samples[1..] else d.samples;
        assert forall k :: 0 <= k < |kept| ==> kept[k] in d.samples;
        var r := kept + [s];
        forall i, j | 0 <= i < j < |r| ensures r[i] != r[j] {
          if j == |kept| {
            assert r[i] == kept[i] && kept[i] in d.samples;
          }
        }
      }
    case UpdateQuantity(p, c, q) =>
    case RemoveAllSamples =>
    case SetGiftWrap(v) =>
    case RemoveGiftWrap =>
    case SetSpecialInstructions(t) =>
    case Clear =>
  }

  /** Any sequence of cart methods keeps the document well formed (at most two distinct samples, one entry per key). */
  lemma {:induction false} ApplyAllPreservesWellFormed(d: CartDoc, ops: seq<Op>, cat: Catalog)
    requires WellFormed(d) && AllApplicable(ops, cat)
    ensures WellFormed(ApplyAll(d, ops, cat))
    decreases |ops|
  {
    if ops != [] {
      if ops[0].Add? {
        AddedPreservesWellFormed(d, cat, ops[0].perfumeId, ops[0].capacityId, ops[0].quantity, ops[0].overrideQuantity);
      } else {
        StepPreservesWellFormed(d, ops[0]);
      }
      assert AllApplicable(ops[1..], cat) by {
        forall i | 0 <= i < |ops[1..]| ensures Applicable(ops[1..][i], cat) {
          assert ops[1..][i] == ops[i + 1];
        }
      }
      ApplyAllPreservesWellFormed(Apply(d, ops[0], cat), ops[1..], cat);
    }
  }

  /**
   * `add` writes the line under its own key: without override the quantity becomes
   * max(1, old + q), a new key counting from 0; with override exactly q. The price
   * is taken from the catalog only when the key is new, and no other entry changes.
   */
  lemma AddSetsLine(d: CartDoc, cat: Catalog, p: nat, c: nat, q: int, overrideQuantity: bool)
    requires WellFormed(d) && p in cat.perfumes
    ensures var key := ProductKey(p, c);
            var r := Added(d, cat, p, c, q, overrideQuantity);
            var before := if key in d.products then d.products[key].quantity else 0;
            var price := if key in d.products then d.products[key].price else ResolvePrice(cat, p, c);
            && r.products[key] == Line(if overrideQuantity then q else Max(1, before + q), p, c, price)
            && r.order == (if key in d.products then d.order else d.order + [key])
            && (!overrideQuantity ==> r.products[key].quantity >= 1)
            && (forall k :: k != key ==> (k in r.products <==> k in d.products))
            && (forall k :: k != key && k in d.products ==> r.products[k] == d.products[k])
            && r.samples == d.samples && r.giftWrap == d.giftWrap && r.instructions == d.instructions
  {
    var key := ProductKey(p, c);
    if key in d.products {
      var line := d.products[key];
      ProductKeyInjective(line.perfumeId, line.capacityId, p, c);
    }
  }

  /** `replace_sample` on a full list drops the oldest pick and appends the new one (FIFO). */
  lemma ReplaceSampleEvictsOldest(d: CartDoc, id: nat)
    requires WellFormed(d) && |d.samples| == MaxSamples && NatToString(id) !in d.samples
    ensures Step(d, ReplaceSample(id)).samples == [d.samples[1], NatToString(id)]
  {
  }

  /** The toggles: `remove_sample`, then `replace_sample`, of a held sample gives the list back without it, plus it at the end. */
  lemma RemoveThenReplaceSample(d: CartDoc, id: nat)
    requires WellFormed(d) && NatToString(id) in d.samples
    ensures var r := Step(Step(d, RemoveSample(id)), ReplaceSample(id));
            r.samples == RemoveFirst(d.samples, NatToString(id)) + [NatToString(id)]
  {
    RemoveFirstMembers(d.samples, NatToString(id));
  }

  /**
   * `remove` and `update_quantity` do nothing for a key that is not in the cart;
   * otherwise they touch that one entry only: `remove` drops it from the dict and
   * the key order, `update_quantity` overwrites its quantity and nothing else.
   */
  lemma RemoveAndUpdateTouchOneLine(d: CartDoc, p: nat, c: nat, q: int)
    requires WellFormed(d)
    ensures var key := ProductKey(p, c);
            var removed := Step(d, Remove(p, c));
            var updated := Step(d, UpdateQuantity(p, c, q));
            && (key !in d.products ==> removed == d && updated == d)
            && (key in d.products ==>
                  && removed.products == d.products - {key}
                  && removed.order == RemoveFirst(d.order, key)
                  && (forall k :: k in removed.order <==> k in d.order && k != key)
                  && updated.order == d.order
                  && updated.products[key] == d.products[key].(quantity := q)
                  && (forall k :: k != key ==> (k in updated.products <==> k in d.products))
                  && (forall k :: k != key && k in d.products ==> updated.products[k] == d.products[k]))
            && removed.samples == d.samples && removed.giftWrap == d.giftWrap && removed.instructions == d.instructions
            && updated.samples == d.samples && updated.giftWrap == d.giftWrap && updated.instructions == d.instructions
  {
    RemoveFirstMembers(d.order, ProductKey(p, c));
  }

  /** `remove_sample` does nothing for an id not held; otherwise it drops that id alone and keeps the rest of the cart. */
  lemma RemoveSampleTouchesOneSample(d: CartDoc, id: nat)
    requires WellFormed(d)
    ensures var s := NatToString(id);
            var r := Step(d, RemoveSample(id));
            && (s !in d.samples ==> r == d)
            && (s in d.samples ==>
                  && |r.samples| == |d.samples| - 1
                  && (forall x :: x in r.samples <==> x in d.samples && x != s))
            && r.order == d.order && r.products == d.products && r.giftWrap == d.giftWrap && r.instructions == d.instructions
  {
    RemoveFirstMembers(d.samples, NatToString(id));
  }

  /** `clear` is idempotent and always yields the canonical empty document. */
  lemma ClearIsCanonical(d: CartDoc)
    ensures Step(d, Clear) == Empty
    ensures Step(Step(d, Clear), Clear) == Step(d, Clear)
    ensures WellFormed(Empty)
  {
  }

  // ---------------------------------------------------------------------------
  // Iteration, totals and length

  /** One record of `__iter__`. */
  datatype Record =
    | ProductItem(key: string, perfumeId: nat, capacityId: nat, quantity: int, price: real)
    | SampleItem(key: string, sampleId: nat)
    | GiftItem(key: string, giftId: nat, price: real)
  {
    function Quantity(): int {
      if ProductItem? then quantity else 1
    }

    /** The record's 'price': a sample's is Decimal(0). */
    function UnitPrice(): real {
      match this
      case ProductItem(_, _, _, _, p) => p
      case SampleItem(_, _) => 0.0
      case GiftItem(_, _, p) => p
    }

    /** The record's 'total_price'. */
    function LineTotal(): real {
      UnitPrice() * Quantity() as real
    }
  }

  /** The record for one products key: none when the perfume or the capacity row is gone. */
  function LineRecord(key: string, products: map<string, Line>, cat: Catalog): seq<Record> {
    if key in products && products[key].perfumeId in cat.perfumes && products[key].capacityId in cat.capacities
    then [ProductItem(key, products[key].perfumeId, products[key].capacityId, products[key].quantity, products[key].price)]
    else []
  }

  function ProductRecords(order: seq<string>, products: map<string, Line>, cat: Catalog): seq<Record>
    decreases |order|
  {
    if order == [] then []
    else ProductRecords(order[..|order| - 1], products, cat) + LineRecord(order[|order| - 1], products, cat)
  }

  /** The record for one sample id: none when the sample row is gone. */
  function SampleRecord(s: string, cat: Catalog): seq<Record> {
    match ParseNat(s)
    case Some(n) => if n in cat.samples then [SampleItem("sample_" + s, n)] else []
    case None => []
  }

  function SampleRecords(samples: seq<string>, cat: Catalog): seq<Record>
    decreases |samples|
  {
    if samples == [] then []
    else SampleRecords(samples[..|samples| - 1], cat) + SampleRecord(samples[|samples| - 1], cat)
  }

  /** The gift record: only when the slot is truthy and names an existing gift. */
  function GiftRecords(v: SlotValue, cat: Catalog): seq<Record> {
    if Truthy(v) && SlotId(v).Some? && SlotId(v).value in cat.gifts
    then [GiftItem("gift_" + SlotText(v), SlotId(v).value, cat.gifts[SlotId(v).value])]
    else []
  }

  /** Everything `__iter__` yields, in order: products, samples, gift. */
  function Records(d: CartDoc, cat: Catalog): seq<Record> {
    ProductRecords(d.order, d.products, cat) + SampleRecords(d.samples, cat) + GiftRecords(d.giftWrap, cat)
  }

  /** Sum of the records' price × quantity. */
  function Total(rs: seq<Record>): real
    decreases |rs|
  {
    if rs == [] then 0.0 else Total(rs[..|rs| - 1]) + rs[|rs| - 1].LineTotal()
  }

  /** `get_total_price`. */
  function TotalPrice(d: CartDoc, cat: Catalog): real {
    Total(Records(d, cat))
  }

  /** `__len__`: the quantities of every stored products entry, whether or not its rows still exist. */
  function QuantitySum(order: seq<string>, products: map<string, Line>): int
    decreases |order|
  {
    if order == [] then 0
    else QuantitySum(order[..|order| - 1], products)
         + (if order[|order| - 1] in products then products[order[|order| - 1]].quantity else 0)
  }

  function Length(d: CartDoc): int {
    QuantitySum(d.order, d.products)
  }

  /** Reference sum: price × quantity over the entries whose perfume and capacity still exist. */
  function LiveLinesTotal(order: seq<string>, products: map<string, Line>, cat: Catalog): real
    decreases |order|
  {
    if order == [] then 0.0
    else
      var key := order[|order| - 1];
      LiveLinesTotal(order[..|order| - 1], products, cat)
      + (if key in products && products[key].perfumeId in cat.perfumes && products[key].capacityId in cat.capacities
         then products[key].price * products[key].quantity as real else 0.0)
  }

  /** The gift's price when the gift record is yielded, 0 otherwise. */
  function GiftPrice(v: SlotValue, cat: Catalog): real {
    if Truthy(v) && SlotId(v).Some? && SlotId(v).value in cat.gifts then cat.gifts[SlotId(v).value] else 0.0
  }

  /** Quantity over the entries that iteration skips. */
  function StaleQuantity(order: seq<string>, products: map<string, Line>, cat: Catalog): int
    decreases |order|
  {
    if order == [] then 0
    else
      var key := order[|order| - 1];
      StaleQuantity(order[..|order| - 1], products, cat)
      + (if key in products && LineRecord(key, products, cat) == [] then products[key].quantity else 0)
  }

  /** Sum of the records' quantities. */
  function Quantities(rs: seq<Record>): int
    decreases |rs|
  {
    if rs == [] then 0 else Quantities(rs[..|rs| - 1]) + rs[|rs| - 1].Quantity()
  }

  lemma {:induction false} TotalAppend(a: seq<Record>, b: seq<Record>)
    ensures Total(a + b) == Total(a) + Total(b)
    decreases |b|
  {
    if b != [] {
      assert (a + b)[..|a + b| - 1] == a + b[..|b| - 1];
      assert (a + b)[|a + b| - 1] == b[|b| - 1];
      TotalAppend(a, b[..|b| - 1]);
    } else {
      assert a + b == a;
    }
  }

  lemma {:induction false} QuantitiesAppend(a: seq<Record>, b: seq<Record>)
    ensures Quantities(a + b) == Quantities(a) + Quantities(b)
    decreases |b|
  {
    if b != [] {
      assert (a + b)[..|a + b| - 1] == a + b[..|b| - 1];
      assert (a + b)[|a + b| - 1] == b[|b| - 1];
      QuantitiesAppend(a, b[..|b| - 1]);
    } else {
      assert a + b == a;
    }
  }

  /** Samples are yielded at price 0 and so add nothing to the total. */
  lemma {:induction false} SampleRecordsAreFree(samples: seq<string>, cat: Catalog)
    ensures Total(SampleRecords(samples, cat)) == 0.0
    ensures |SampleRecords(samples, cat)| <= |samples|
    ensures forall r :: r in SampleRecords(samples, cat) ==> r.SampleItem? && r.Quantity() == 1 && r.UnitPrice() == 0.0
    decreases |samples|
  {
    if samples != [] {
      var init := samples[..|samples| - 1];
      SampleRecordsAreFree(init, cat);
      TotalAppend(SampleRecords(init, cat), SampleRecord(samples[|samples| - 1], cat));
    }
  }

  /**
   * A sample record is yielded exactly for a held id string whose sample row
   * exists, under the key f"sample_{sample_id}".
   */
  lemma {:induction false} SampleRecordMembership(samples: seq<string>, cat: Catalog, r: Record)
    requires r.SampleItem?
    ensures r in SampleRecords(samples, cat) <==>
            exists s :: s in samples && ParseNat(s) == Some(r.sampleId) && r.key == "sample_" + s && r.sampleId in cat.samples
    decreases |samples|
  {
    if samples != [] {
      var init := samples[..|samples| - 1];
      var last := samples[|samples| - 1];
      SampleRecordMembership(init, cat, r);
      assert samples == init + [last];
      assert forall s :: s in samples <==> s in init || s == last;
      assert r in SampleRecord(last, cat) <==>
             ParseNat(last) == Some(r.sampleId) && r.key == "sample_" + last && r.sampleId in cat.samples;
    }
  }

  lemma {:induction false} ProductRecordsTotal(order: seq<string>, products: map<string, Line>, cat: Catalog)
    ensures Total(ProductRecords(order, products, cat)) == LiveLinesTotal(order, products, cat)
    ensures forall r :: r in ProductRecords(order, products, cat) ==> r.ProductItem?
    decreases |order|
  {
    if order != [] {
      var init := order[..|order| - 1];
      ProductRecordsTotal(init, products, cat);
      TotalAppend(ProductRecords(init, products, cat), LineRecord(order[|order| - 1], products, cat));
    }
  }

  /**
   * At most one gift record is yielded: exactly when the slot is truthy and names
   * an existing gift, for that gift at its catalog price.
   */
  lemma GiftRecordsTotal(v: SlotValue, cat: Catalog)
    ensures Total(GiftRecords(v, cat)) == GiftPrice(v, cat)
    ensures |GiftRecords(v, cat)| <= 1
    ensures GiftRecords(v, cat) != [] <==> Truthy(v) && SlotId(v).Some? && SlotId(v).value in cat.gifts
    ensures GiftRecords(v, cat) != [] ==>
              && GiftRecords(v, cat)[0].GiftItem?
              && GiftRecords(v, cat)[0].giftId == SlotId(v).value
              && GiftRecords(v, cat)[0].price == cat.gifts[SlotId(v).value]
  {
    var gs := GiftRecords(v, cat);
    if gs != [] {
      assert gs[..0] == [];
      assert gs[0].LineTotal() == gs[0].price * 1.0;
    }
  }

  /**
   * `get_total_price` is the sum of price × quantity over the entries whose rows
   * still exist, plus the gift's price once; samples add nothing.
   */
  lemma TotalPriceIsLiveLinesPlusGift(d: CartDoc, cat: Catalog)
    ensures TotalPrice(d, cat) == LiveLinesTotal(d.order, d.products, cat) + GiftPrice(d.giftWrap, cat)
  {
    var ps := ProductRecords(d.order, d.products, cat);
    var ss := SampleRecords(d.samples, cat);
    var gs := GiftRecords(d.giftWrap, cat);
    assert Records(d, cat) == ps + ss + gs;
    TotalAppend(ps + ss, gs);
    TotalAppend(ps, ss);
    ProductRecordsTotal(d.order, d.products, cat);
    SampleRecordsAreFree(d.samples, cat);
    GiftRecordsTotal(d.giftWrap, cat);
  }

  /** `__len__` counts what iteration yields for products plus what it skips as stale. */
  lemma {:induction false} LengthCountsStaleEntries(order: seq<string>, products: map<string, Line>, cat: Catalog)
    ensures QuantitySum(order, products) == Quantities(ProductRecords(order, products, cat)) + StaleQuantity(order, products, cat)
    decreases |order|
  {
    if order != [] {
      var init := order[..|order| - 1];
      LengthCountsStaleEntries(init, products, cat);
      QuantitiesAppend(ProductRecords(init, products, cat), LineRecord(order[|order| - 1], products, cat));
      var one := LineRecord(order[|order| - 1], products, cat);
      if one != [] {
        assert one[..0] == [];
      }
    }
  }

  /** A products entry is yielded exactly when its key is stored and both its rows exist. */
  lemma {:induction false} ProductRecordMembership(order: seq<string>, products: map<string, Line>, cat: Catalog, r: Record)
    requires r.ProductItem?
    ensures r in ProductRecords(order, products, cat) <==>
            r.key in order && r.key in products
            && products[r.key] == Line(r.quantity, r.perfumeId, r.capacityId, r.price)
            && r.perfumeId in cat.perfumes && r.capacityId in cat.capacities
    decreases |order|
  {
    if order != [] {
      var init := order[..|order| - 1];
      ProductRecordMembership(init, products, cat, r);
      assert order == init + [order[|order| - 1]];
    }
  }

  // ---------------------------------------------------------------------------
  // The cart object

  class Cart {
    var productOrder: seq<string>
    var products: map<string, Line>
    var samples: seq<string>
    var giftWrap: SlotValue
    var specialInstructions: string

    function Doc(): CartDoc
      reads this
    {
      CartDoc(productOrder, products, samples, giftWrap, specialInstructions)
    }

    ghost predicate Valid()
      reads this
    {
      WellFormed(Doc())
    }

    /** `__init__` for a session that holds no cart yet. */
    constructor ()
      ensures Valid() && Doc() == Empty
    {
      productOrder, products, samples, giftWrap, specialInstructions := [], map[], [], Null, "";
    }

    method Add(cat: Catalog, perfumeId: nat, capacityId: nat, quantity: int, overrideQuantity: bool)
      requires Valid() && perfumeId in cat.perfumes
      modifies this
      ensures Valid()
      ensures Doc() == Added(old(Doc()), cat, perfumeId, capacityId, quantity, overrideQuantity)
    {
      ghost var d := Doc();
      var key := ProductKey(perfumeId, capacityId);
      // A new key starts as {quantity: 0, ..., price: str(_get_price(...))}.
      var line := if key in products then products[key] else Line(0, perfumeId, capacityId, ResolvePrice(cat, perfumeId, capacityId));
      if key !in products {
        productOrder := productOrder + [key];
      }
      var newQuantity := if overrideQuantity then quantity else Max(1, line.quantity + quantity);
      products := products[key := line.(quantity := newQuantity)];
      assert Doc() == Added(d, cat, perfumeId, capacityId, quantity, overrideQuantity);
      AddedPreservesWellFormed(d, cat, perfumeId, capacityId, quantity, overrideQuantity);
    }

    method Remove(perfumeId: nat, capacityId: nat)
      requires Valid()
      modifies this
      ensures Valid()
      ensures Doc() == Step(old(Doc()), Op.Remove(perfumeId, capacityId))
    {
      var key := ProductKey(perfumeId, capacityId);
      ghost var d := Doc();
      if key in products {
        products := products - {key};
        productOrder := RemoveFirst(productOrder, key);
      }
      StepPreservesWellFormed(d, Op.Remove(perfumeId, capacityId));
    }

    method UpdateQuantity(perfumeId: nat, capacityId: nat, quantity: int)
      requires Valid()
      modifies this
      ensures Valid()
      ensures Doc() == Step(old(Doc()), Op.UpdateQuantity(perfumeId, capacityId, quantity))
    {
      var key := ProductKey(perfumeId, capacityId);
      if key in products {
        products := products[key := products[key].(quantity := quantity)];
      }
    }

    method AddSample(sampleId: nat)
      requires Valid()
      modifies this
      ensures Valid()
      ensures Doc() == Step(old(Doc()), Op.AddSample(sampleId))
    {
      ghost var d := Doc();
      var s := NatToString(sampleId);
      if s !in samples && |samples| < MaxSamples {
        samples := samples + [s];
      }
      StepPreservesWellFormed(d, Op.AddSample(sampleId));
    }

    method ReplaceSample(sampleId: nat)
      requires Valid()
      modifies this
      ensures Valid()
      ensures Doc() == Step(old(Doc()), Op.ReplaceSample(sampleId))
    {
      ghost var d := Doc();
      var s := NatToString(sampleId);
      if s !in samples {
        if |samples| >= MaxSamples {
          samples := samples[1..];
        }
        samples := samples + [s];
      }
      StepPreservesWellFormed(d, Op.ReplaceSample(sampleId));
    }

    method RemoveSample(sampleId: nat)
      requires Valid()
      modifies this
      ensures Valid()
      ensures Doc() == Step(old(Doc()), Op.RemoveSample(sampleId))
    {
      ghost var d := Doc();
      var s := NatToString(sampleId);
      if s in samples {
        samples := RemoveFirst(samples, s);
      }
      StepPreservesWellFormed(d, Op.RemoveSample(sampleId));
    }

    method RemoveAllSamples()
      requires Valid()
      modifies this
      ensures Valid()
      ensures Doc() == Step(old(Doc()), Op.RemoveAllSamples)
    {
      samples := [];
    }

    /** Stores the value exactly as passed, whatever its type. */
    method SetGiftWrap(value: SlotValue)
      requires Valid()
      modifies this
      ensures Valid()
      ensures Doc() == Step(old(Doc()), Op.SetGiftWrap(value))
    {
      giftWrap := value;
    }

    method RemoveGiftWrap()
      requires Valid()
      modifies this
      ensures Valid()
      ensures Doc() == Step(old(Doc()), Op.RemoveGiftWrap)
    {
      giftWrap := Null;
    }

    method SetSpecialInstructions(text: string)
      requires Valid()
      modifies this
      ensures Valid()
      ensures Doc() == Step(old(Doc()), Op.SetSpecialInstructions(text))
    {
      specialInstructions := text;
    }

    method Clear()
      modifies this
      ensures Valid()
      ensures Doc() == Empty
    {
      productOrder, products, samples, giftWrap, specialInstructions := [], map[], [], Null, "";
    }

    /** `__iter__`, run to completion. */
    method Items(cat: Catalog) returns (records: seq<Record>)
      ensures records == Records(Doc(), cat)
    {
      records := [];
      var i := 0;
      while i < |productOrder|
        invariant 0 <= i <= |productOrder|
        invariant records == ProductRecords(productOrder[..i], products, cat)
      {
        assert productOrder[..i + 1][..i] == productOrder[..i];
        var key := productOrder[i];
        if key in products && products[key].perfumeId in cat.perfumes && products[key].capacityId in cat.capacities {
          var line := products[key];
          records := records + [ProductItem(key, line.perfumeId, line.capacityId, line.quantity, line.price)];
        }
        i := i + 1;
      }
      assert productOrder[..i] == productOrder;
      var productPart := records;
      var j := 0;
      while j < |samples|
        invariant 0 <= j <= |samples|
        invariant records == productPart + SampleRecords(samples[..j], cat)
      {
        assert samples[..j + 1][..j] == samples[..j];
        var s := samples[j];
        var found := ParseNat(s);
        if found.Some? && found.value in cat.samples {
          records := records + [SampleItem("sample_" + s, found.value)];
        }
        j := j + 1;
      }
      assert samples[..j] == samples;
      if Truthy(giftWrap) {
        var id := SlotId(giftWrap);
        if id.Some? && id.value in cat.gifts {
          records := records + [GiftItem("gift_" + SlotText(giftWrap), id.value, cat.gifts[id.value])];
        }
      }
    }

    /** `get_total_price`: accumulates price × quantity over the iterated records. */
    method GetTotalPrice(cat: Catalog) returns (total: real)
      ensures total == TotalPrice(Doc(), cat)
    {
      var records := Items(cat);
      total := 0.0;
      var i := 0;
      while i < |records|
        invariant 0 <= i <= |records|
        invariant total == Total(records[..i])
      {
        assert records[..i + 1][..i] == records[..i];
        total := total + records[i].UnitPrice() * records[i].Quantity() as real;
        i := i + 1;
      }
      assert records[..i] == records;
    }

    /** `__len__`. */
    method Len() returns (n: int)
      ensures n == Length(Doc())
    {
      n := 0;
      var i := 0;
      while i < |productOrder|
        invariant 0 <= i <= |productOrder|
        invariant n == QuantitySum(productOrder[..i], products)
      {
        assert productOrder[..i + 1][..i] == productOrder[..i];
        if productOrder[i] in products {
          n := n + products[productOrder[i]].quantity;
        }
        i := i + 1;
      }
      assert productOrder[..i] == productOrder;
    }

    /** `get_gift_wrap`: the selected gift when the slot is truthy and the gift still exists. */
    method GetGiftWrap(cat: Catalog) returns (gift: Option<nat>)
      ensures gift.Some? <==> GiftRecords(giftWrap, cat) != []
      ensures gift.Some? ==> gift.value in cat.gifts && SlotId(giftWrap) == gift
    {
      gift := None;
      if Truthy(giftWrap) {
        var id := SlotId(giftWrap);
        if id.Some? && id.value in cat.gifts {
          gift := id;
        }
      }
    }
  }
}
