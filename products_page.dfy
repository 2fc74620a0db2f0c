/** The products page: the same two lists as the shop page, each computed
    by a single filter. */
module ProductsPage {
  import opened Common
  import opened Entities
  import opened LocalCart
  import ShopPage

  /** `p.tags?.featured && p.subscription !== 'required'` */
  predicate FeaturedPurchasable(p: Product) {
    IsFeatured(p) && !IsRequired(p)
  }

  /** `!p.tags?.featured && p.subscription !== 'required'` */
  predicate OriginalPurchasable(p: Product) {
    !IsFeatured(p) && !IsRequired(p)
  }

  function Featured(ps: seq<Product>): seq<Product> {
    Filter(ps, FeaturedPurchasable)
  }

  function Originals(ps: seq<Product>): seq<Product> {
    Filter(ps, OriginalPurchasable)
  }

  /** The one-step filters list exactly what the shop page's two-step
      filters list, in the same order; the lists are disjoint. */
  lemma SameListsAsShopPage(ps: seq<Product>)
    ensures Featured(ps) == ShopPage.Featured(ps)
    ensures Originals(ps) == ShopPage.Originals(ps)
    ensures forall p :: !(p in Featured(ps) && p in Originals(ps))
  {
    FilterTwice(ps, ShopPage.Purchasable, IsFeatured, FeaturedPurchasable);
    FilterTwice(ps, ShopPage.Purchasable, ShopPage.NotFeatured, OriginalPurchasable);
  }

  /** A card shows what was last written for its variant, zero included:
      `localCart[vid] || 0` reads back `updateLocalCartItem(vid, q)`. */
  lemma CardShowsStoredQuantity(c: Cart, p: Product, q: int)
    requires Wellformed(c) && FirstVariant(p).Some?
    ensures ShopPage.ShownQuantity(Put(c, FirstVariant(p).value.id, q), p) == q
  {
    PutLookup(c, FirstVariant(p).value.id, q, FirstVariant(p).value.id);
  }
}
