/**
 * The promo keys the views keep in `request.session`: 'promo_code',
 * 'discount_percentage' (written as `str(Decimal)`, read back with `Decimal(...)`,
 * an exact round trip, so the number is kept) and 'promo_message'. A missing key
 * is `None`.
 */
module Sessions {
  import opened Wrappers

  class PromoSession {
    var promoCode: Option<string>
    var discountPercentage: Option<real>
    var promoMessage: Option<string>

    constructor ()
      ensures promoCode == None && discountPercentage == None && promoMessage == None
    {
      promoCode, discountPercentage, promoMessage := None, None, None;
    }

    /** `Decimal(request.session.get('discount_percentage', 0))`. */
    function Discount(): real
      reads this
    {
      discountPercentage.GetOr(0.0)
    }

    /** The loop `for key in ['promo_code', 'discount_percentage', 'promo_message']: if key in session: del session[key]`. */
    method ForgetPromo()
      modifies this
      ensures promoCode == None && discountPercentage == None && promoMessage == None
      ensures Discount() == 0.0
    {
      promoCode := None;
      discountPercentage := None;
      promoMessage := None;
    }
  }
}
