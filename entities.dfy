/** The backend's records as the storefront sees them. Optional fields are
    the ones the code reads through `?.` or `||`. */
module Entities {
  import opened Common

  datatype Variant = Variant(id: string, name: Option<string>, price: Option<int>)

  /** `tags.featured` is read for its truthiness only. */
  datatype Tags = Tags(featured: bool, color: Option<string>)

  datatype Product = Product(
    id: string,
    name: Option<string>,
    subscription: Option<string>,
    tags: Option<Tags>,
    variants: Option<seq<Variant>>,
    defaultVariantId: Option<string>,
    defaultVariantID: Option<string>)

  /** `variants` maps a variant id to a value read for its truthiness. */
  datatype Subscription = Subscription(id: string, variants: Option<map<string, bool>>)

  datatype Address = Address(id: string, name: string, street: string, city: string, zip: string)

  datatype Card = Card(id: string, brand: string, last4: string)

  datatype Order = Order(id: string, total: int, status: string)

  datatype Profile = Profile(name: string, email: string)

  /** A line of the server cart: its variant id may be missing, in which
      case the line's own `id` is used as the key. */
  datatype ServerItem = ServerItem(productVariantID: Option<string>, id: string, quantity: int)

  /** The cached server cart. Its `items` may be missing. */
  datatype ServerCart = ServerCart(items: Option<seq<ServerItem>>, addressID: Option<string>, cardID: Option<string>)

  /** `{ items: [] }`, the initial and the post-checkout server cart. */
  const EmptyServerCart := ServerCart(Some([]), None, None)

  /** `p.subscription === 'required'` */
  predicate IsRequired(p: Product) {
    p.subscription == Some("required")
  }

  /** `p.tags?.featured` */
  predicate IsFeatured(p: Product) {
    p.tags.Some? && p.tags.value.featured
  }

  /** `p.variants?.[0]` */
  function FirstVariant(p: Product): (r: Option<Variant>)
    ensures r.Some? <==> p.variants.Some? && |p.variants.value| > 0
    ensures r.Some? ==> r.value == p.variants.value[0]
  {
    if p.variants.Some? && |p.variants.value| > 0 then Some(p.variants.value[0]) else None
  }
}
