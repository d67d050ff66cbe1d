/**
 * The decision logic of the cart views (cart/views.py): the guards each handler
 * checks before it calls the cart methods, and the promo and discounted-price
 * computations of the cart pages. Rendering, HTMX headers, cookies and redirects
 * are reduced to a `Reply`.
 */
module CartViews {
  import opened Wrappers
  import opened Ids
  import opened Decimals
  import opened Catalogs
  import opened CartModel
  import opened Sessions

  /** How a handler ended: a 404 from `get_object_or_404`, a guard that refused, or the cart calls ran. */
  datatype Reply = NotFound | Refused | Applied

  /** The PerfumeCapacity row exists, is available and has at least `quantity` in stock. */
  predicate InStock(cat: Catalog, perfumeId: nat, capacityId: nat, quantity: int) {
    && (perfumeId, capacityId) in cat.variants
    && cat.variants[(perfumeId, capacityId)].available
    && cat.variants[(perfumeId, capacityId)].stock >= quantity
  }

  /** The gift slot never holds a string: true of the empty cart and kept by every handler here. */
  predicate GiftSlotHoldsNoString(d: CartDoc) {
    !d.giftWrap.Str?
  }

  /**
   * `cart_add`. `capacity` is the posted capacity id (None when the field is
   * missing or empty); `overrideField` the raw 'override' field, which turns
   * override on only when it is exactly the string 'True'.
   */
  method CartAdd(cart: Cart, cat: Catalog, isPost: bool, perfumeId: nat, capacity: Option<nat>,
                 quantity: int, overrideField: Option<string>) returns (reply: Reply)
    requires cart.Valid()
    modifies cart
    ensures cart.Valid()
    ensures reply == NotFound <==> isPost && perfumeId !in cat.perfumes
    ensures reply == Applied <==>
            && isPost && perfumeId in cat.perfumes && capacity.Some?
            && capacity.value in cat.capacities && InStock(cat, perfumeId, capacity.value, quantity)
    ensures reply == Applied ==>
            cart.Doc() == Added(old(cart.Doc()), cat, perfumeId, capacity.value, quantity, overrideField == Some("True"))
    ensures reply != Applied ==> cart.Doc() == old(cart.Doc())
    ensures GiftSlotHoldsNoString(old(cart.Doc())) ==> GiftSlotHoldsNoString(cart.Doc())
  {
    if !isPost {
      return Refused;
    }
    if perfumeId !in cat.perfumes {
      return NotFound;
    }
    var overrideQuantity := overrideField == Some("True");
    if capacity.None? {
      return Refused;
    }
    var capacityId := capacity.value;
    if capacityId !in cat.capacities || (perfumeId, capacityId) !in cat.variants {
      return Refused;
    }
    var variant := cat.variants[(perfumeId, capacityId)];
    if !variant.available || variant.stock < quantity {
      return Refused;
    }
    cart.Add(cat, perfumeId, capacityId, quantity, overrideQuantity);
    reply := Applied;
  }

  /**
   * `cart_remove`: removes the line and then, whichever line it was, every sample
   * and the gift wrap.
   */
  method CartRemove(cart: Cart, cat: Catalog, perfumeId: nat, capacityId: nat) returns (reply: Reply)
    requires cart.Valid()
    modifies cart
    ensures cart.Valid()
    ensures reply == NotFound <==> perfumeId !in cat.perfumes || capacityId !in cat.capacities
    ensures reply != NotFound ==> reply == Applied
    ensures reply == Applied ==>
            cart.Doc() == Step(Step(Step(old(cart.Doc()), Remove(perfumeId, capacityId)), RemoveAllSamples), RemoveGiftWrap)
    ensures reply == Applied ==>
            && ProductKey(perfumeId, capacityId) !in cart.products
            && (forall k :: k != ProductKey(perfumeId, capacityId) && k in old(cart.products) ==>
                  k in cart.products && cart.products[k] == old(cart.products)[k])
            && cart.samples == [] && cart.giftWrap == Null
            && cart.specialInstructions == old(cart.specialInstructions)
    ensures reply == NotFound ==> cart.Doc() == old(cart.Doc())
    ensures GiftSlotHoldsNoString(old(cart.Doc())) ==> GiftSlotHoldsNoString(cart.Doc())
  {
    if perfumeId !in cat.perfumes || capacityId !in cat.capacities {
      return NotFound;
    }
    cart.Remove(perfumeId, capacityId);
    cart.RemoveAllSamples();
    cart.RemoveGiftWrap();
    reply := Applied;
  }

  /**
   * `cart_update_quantity`: when the variant exists, is available and has the
   * stock, the quantity is overwritten through `add` with override (which also
   * creates the line when it is absent, and accepts a quantity of 0 or below).
   */
  method CartUpdateQuantity(cart: Cart, cat: Catalog, isPost: bool, perfumeId: nat, capacityId: nat, quantity: int)
    returns (reply: Reply)
    requires cart.Valid()
    modifies cart
    ensures cart.Valid()
    ensures reply == NotFound <==> isPost && (perfumeId !in cat.perfumes || capacityId !in cat.capacities)
    ensures reply == Applied <==>
            isPost && perfumeId in cat.perfumes && capacityId in cat.capacities && InStock(cat, perfumeId, capacityId, quantity)
    ensures reply == Applied ==> cart.Doc() == Added(old(cart.Doc()), cat, perfumeId, capacityId, quantity, true)
    ensures reply == Applied ==>
            && ProductKey(perfumeId, capacityId) in cart.products
            && cart.products[ProductKey(perfumeId, capacityId)].quantity == quantity
    ensures reply != Applied ==> cart.Doc() == old(cart.Doc())
    ensures GiftSlotHoldsNoString(old(cart.Doc())) ==> GiftSlotHoldsNoString(cart.Doc())
  {
    if !isPost {
      return Refused;
    }
    if perfumeId !in cat.perfumes || capacityId !in cat.capacities {
      return NotFound;
    }
    if (perfumeId, capacityId) !in cat.variants {
      return Refused;
    }
    var variant := cat.variants[(perfumeId, capacityId)];
    if !variant.available || variant.stock < quantity {
      return Refused;
    }
    AddSetsLine(cart.Doc(), cat, perfumeId, capacityId, quantity, true);
    cart.Add(cat, perfumeId, capacityId, quantity, true);
    reply := Applied;
  }

  /**
   * `cart_add_sample`: refused while `products` is empty; otherwise a held sample
   * is removed and any other goes through `replace_sample`.
   */
  method CartAddSample(cart: Cart, cat: Catalog, sampleId: nat) returns (reply: Reply)
    requires cart.Valid()
    modifies cart
    ensures cart.Valid()
    ensures reply == NotFound <==> sampleId !in cat.samples
    ensures reply == Refused <==> sampleId in cat.samples && old(cart.products) == map[]
    ensures reply == Applied ==>
            cart.Doc() == if NatToString(sampleId) in old(cart.samples)
                          then Step(old(cart.Doc()), RemoveSample(sampleId))
                          else Step(old(cart.Doc()), ReplaceSample(sampleId))
    ensures reply == Applied ==> (NatToString(sampleId) in cart.samples <==> NatToString(sampleId) !in old(cart.samples))
    ensures reply != Applied ==> cart.Doc() == old(cart.Doc())
    ensures GiftSlotHoldsNoString(old(cart.Doc())) ==> GiftSlotHoldsNoString(cart.Doc())
  {
    if sampleId !in cat.samples {
      return NotFound;
    }
    if cart.products == map[] {
      return Refused;
    }
    if NatToString(sampleId) in cart.samples {
      RemoveFirstMembers(cart.samples, NatToString(sampleId));
      cart.RemoveSample(sampleId);
    } else {
      cart.ReplaceSample(sampleId);
    }
    reply := Applied;
  }

  /** `cart_remove_sample`: no lookup and no guard. */
  method CartRemoveSample(cart: Cart, sampleId: nat)
    requires cart.Valid()
    modifies cart
    ensures cart.Valid()
    ensures cart.Doc() == Step(old(cart.Doc()), RemoveSample(sampleId))
    ensures NatToString(sampleId) !in cart.samples
    ensures GiftSlotHoldsNoString(old(cart.Doc())) ==> GiftSlotHoldsNoString(cart.Doc())
  {
    RemoveFirstMembers(cart.samples, NatToString(sampleId));
    cart.RemoveSample(sampleId);
  }

  /** The gift slot after `cart_add_gift` passes its guards. */
  function GiftToggled(v: SlotValue, giftId: nat): SlotValue {
    if v == Str(NatToString(giftId)) then Null else Int(giftId)
  }

  /**
   * `cart_add_gift`: refused while `products` is empty; otherwise the slot is
   * cleared when it equals `str(gift_id)` and set to the int `gift_id` otherwise.
   */
  method CartAddGift(cart: Cart, cat: Catalog, giftId: nat) returns (reply: Reply)
    requires cart.Valid()
    modifies cart
    ensures cart.Valid()
    ensures reply == NotFound <==> giftId !in cat.gifts
    ensures reply == Refused <==> giftId in cat.gifts && old(cart.products) == map[]
    ensures reply == Applied ==> cart.Doc() == old(cart.Doc()).(giftWrap := GiftToggled(old(cart.giftWrap), giftId))
    ensures reply != Applied ==> cart.Doc() == old(cart.Doc())
    ensures GiftSlotHoldsNoString(old(cart.Doc())) ==> GiftSlotHoldsNoString(cart.Doc())
  {
    if giftId !in cat.gifts {
      return NotFound;
    }
    if cart.products == map[] {
      return Refused;
    }
    if cart.giftWrap == Str(NatToString(giftId)) {
      cart.RemoveGiftWrap();
    } else {
      cart.SetGiftWrap(Int(giftId));
    }
    reply := Applied;
  }

  /** `cart_remove_gift`. */
  method CartRemoveGift(cart: Cart)
    requires cart.Valid()
    modifies cart
    ensures cart.Valid()
    ensures cart.Doc() == Step(old(cart.Doc()), RemoveGiftWrap)
  {
    cart.RemoveGiftWrap();
  }

  /**
   * The toggle-off branch of `cart_add_gift` never runs: the slot only ever
   * receives ints, an int never equals `str(gift_id)`, so pressing a gift again
   * keeps it selected instead of removing it.
   */
  lemma GiftToggleNeverClears(v: SlotValue, giftId: nat)
    requires !v.Str?
    ensures GiftToggled(v, giftId) == Int(giftId)
    ensures GiftToggled(GiftToggled(v, giftId), giftId) == Int(giftId)
  {
  }

  /** The figures a cart page shows. */
  datatype PriceSummary = PriceSummary(total: real, discount: real, discountedPrice: real)

  /** `cart_summary` (and the same computation in `cart_detail` and `cart_modal`): discount read from the session, 0 when absent. */
  method CartSummary(cart: Cart, session: PromoSession, cat: Catalog) returns (view: PriceSummary)
    ensures view.total == TotalPrice(cart.Doc(), cat)
    ensures view.discount == (if session.discountPercentage.Some? then session.discountPercentage.value else 0.0)
    ensures view.discountedPrice == PercentOff(view.total, view.discount)
  {
    var total := cart.GetTotalPrice(cat);
    var discount := session.Discount();
    view := PriceSummary(total, discount, PercentOff(total, discount));
  }

  const PromoApplied: string := "Promo code applied successfully!"
  const PromoInvalid: string := "Invalid or inactive promo code."

  /** The POSTs `cart_detail` reacts to, in the order it checks them. */
  datatype DetailRequest =
    | Show
    | PostInstructions(text: string)
    | PostCode(formValid: bool, code: string)

  datatype DetailView =
    | InstructionsSaved(text: string)
    | CodeSummary(summary: PriceSummary, message: string)
    | DetailPage(summary: PriceSummary)

  /**
   * `cart_detail`. A valid active code stores the code and its discount in the
   * session; an invalid one stores only the message and leaves any earlier promo
   * keys in place. The code summary shows the code's discount (or 0), not the
   * session's; an invalid form shows discount 0 and no message.
   */
  method CartDetail(cart: Cart, session: PromoSession, cat: Catalog, request: DetailRequest) returns (view: DetailView)
    requires cart.Valid()
    modifies cart, session
    ensures cart.Valid()
    ensures request.PostInstructions? ==>
            && cart.Doc() == Step(old(cart.Doc()), SetSpecialInstructions(request.text))
            && view == InstructionsSaved(request.text)
    ensures !request.PostInstructions? ==> cart.Doc() == old(cart.Doc())
    ensures request.PostCode? ==> view.CodeSummary?
    ensures request.PostCode? && request.formValid && request.code in cat.promos ==>
            && session.promoCode == Some(request.code)
            && session.discountPercentage == Some(cat.promos[request.code])
            && session.promoMessage == Some(PromoApplied)
            && view.CodeSummary? && view.summary.discount == cat.promos[request.code]
            && view.message == PromoApplied
    ensures request.PostCode? && request.formValid && request.code !in cat.promos ==>
            && session.promoCode == old(session.promoCode)
            && session.discountPercentage == old(session.discountPercentage)
            && session.promoMessage == Some(PromoInvalid)
            && view.CodeSummary? && view.summary.discount == 0.0
            && view.message == PromoInvalid
    ensures request.PostCode? && !request.formValid ==>
            view.CodeSummary? && view.summary.discount == 0.0 && view.message == ""
    ensures !(request.PostCode? && request.formValid) ==>
            && session.promoCode == old(session.promoCode)
            && session.discountPercentage == old(session.discountPercentage)
            && session.promoMessage == old(session.promoMessage)
    ensures view.CodeSummary? || view.DetailPage? ==>
            && view.summary.total == TotalPrice(cart.Doc(), cat)
            && view.summary.discountedPrice == PercentOff(view.summary.total, view.summary.discount)
    ensures request.Show? ==> view.DetailPage? && view.summary.discount == old(session.Discount())
  {
    match request {
      case PostInstructions(text) =>
        cart.SetSpecialInstructions(text);
        return InstructionsSaved(text);
      case PostCode(formValid, code) =>
        var discount := 0.0;
        var message := "";
        if formValid {
          if code in cat.promos {
            discount := cat.promos[code];
            message := PromoApplied;
            session.promoCode := Some(code);
            session.discountPercentage := Some(discount);
          } else {
            message := PromoInvalid;
          }
          session.promoMessage := Some(message);
        }
        var total := cart.GetTotalPrice(cat);
        return CodeSummary(PriceSummary(total, discount, PercentOff(total, discount)), message);
      case Show =>
        var total := cart.GetTotalPrice(cat);
        var discount := session.Discount();
        return DetailPage(PriceSummary(total, discount, PercentOff(total, discount)));
    }
  }
}
