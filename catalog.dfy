/**
 * The catalog rows the cart and the checkout read, as one immutable input.
 *
 * Perfumes, capacities, perfume/capacity variants (PerfumeCapacity), samples,
 * gift wraps and active promo codes, keyed by their database ids. The ORM
 * queries of the source become lookups in these maps and sets.
 */
module Catalogs {

  /** A perfume; `discountedPrice` is what `perfume.get_price_with_discount()` returns. */
  datatype Perfume = Perfume(discountedPrice: real)

  /** A PerfumeCapacity row: its own price (nullable), availability flag and stock count. */
  datatype Variant = Variant(price: PriceField, available: bool, stock: int)

  /** A nullable Decimal column. */
  datatype PriceField = NoPrice | Price(amount: real)

  datatype Catalog = Catalog(
    perfumes: map<nat, Perfume>,
    capacities: set<nat>,
    variants: map<(nat, nat), Variant>,  // keyed by (perfume id, capacity id)
    samples: set<nat>,
    gifts: map<nat, real>,               // gift id -> price
    promos: map<string, real>)           // active promo code -> discount percentage
}
