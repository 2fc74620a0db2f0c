/** The shop page: the catalog split into featured products and originals,
    the quantity each card shows, subscription lookup, and the per-variant
    subscription errors the page keeps. */
module ShopPage {
  import opened Common
  import opened Entities
  import opened LocalCart
  import opened Remote
  import opened ProductCard

  /** `p.subscription !== 'required'` */
  predicate Purchasable(p: Product) {
    !IsRequired(p)
  }

  /** `!p.tags?.featured` */
  predicate NotFeatured(p: Product) {
    !IsFeatured(p)
  }

  /** `filteredProducts` */
  function FilteredProducts(ps: seq<Product>): seq<Product> {
    Filter(ps, Purchasable)
  }

  /** `featured`, filtered from `filteredProducts` */
  function Featured(ps: seq<Product>): seq<Product> {
    Filter(FilteredProducts(ps), IsFeatured)
  }

  /** `originals`, filtered from `filteredProducts` */
  function Originals(ps: seq<Product>): seq<Product> {
    Filter(FilteredProducts(ps), NotFeatured)
  }

  /** No subscription-only product is listed; the two lists are disjoint and
      together hold every purchasable product exactly as often as the
      catalog does. */
  lemma ShopPartition(ps: seq<Product>)
    ensures forall p :: p in Featured(ps) ==> p in ps && !IsRequired(p) && IsFeatured(p)
    ensures forall p :: p in Originals(ps) ==> p in ps && !IsRequired(p) && !IsFeatured(p)
    ensures multiset(Featured(ps)) + multiset(Originals(ps)) == multiset(FilteredProducts(ps))
    ensures forall p :: !(p in Featured(ps) && p in Originals(ps))
  {
    FilterSplit(FilteredProducts(ps), IsFeatured, NotFeatured);
  }

  /** Both lists keep catalog order: listing a catalog in two parts lists
      each part in turn. */
  lemma ShopListsKeepOrder(xs: seq<Product>, ys: seq<Product>)
    ensures Featured(xs + ys) == Featured(xs) + Featured(ys)
    ensures Originals(xs + ys) == Originals(xs) + Originals(ys)
  {
    FilterConcat(xs, ys, Purchasable);
    FilterConcat(FilteredProducts(xs), FilteredProducts(ys), IsFeatured);
    FilterConcat(FilteredProducts(xs), FilteredProducts(ys), NotFeatured);
  }

  /** `localCart[vid] || 0` with `vid = product.variants[0].id`; reading
      `variants[0].id` throws for a product without variants. */
  function ShownQuantity(c: Cart, p: Product): (r: int)
    requires FirstVariant(p).Some?
    ensures Lookup(c, FirstVariant(p).value.id).None? ==> r == 0
    ensures Lookup(c, FirstVariant(p).value.id).Some? ==> r == Lookup(c, FirstVariant(p).value.id).value
  {
    OrZero(Lookup(c, FirstVariant(p).value.id))
  }

  /** Pressing plus on a card writes `quantity + 1` for its variant, and the
      card then shows one more than before. */
  lemma PlusIncrementsShownQuantity(c: Cart, p: Product)
    requires Wellformed(c) && FirstVariant(p).Some?
    ensures var q := ShownQuantity(c, p);
      ShownQuantity(Put(c, FirstVariant(p).value.id, HandlePlus(q, true).value), p) == q + 1
  {
    var vid := FirstVariant(p).value.id;
    PutLookup(c, vid, HandlePlus(ShownQuantity(c, p), true).value, vid);
  }

  /** `s.variants && s.variants[vid]` */
  predicate Grants(s: Subscription, vid: string) {
    s.variants.Some? && vid in s.variants.value && s.variants.value[vid]
  }

  /** `subscriptions.find(s => s.variants && s.variants[vid])` */
  function ActiveSubscription(subs: seq<Subscription>, vid: string): (r: Option<Subscription>)
    ensures r.Some? ==> r.value in subs && Grants(r.value, vid)
    ensures r.None? <==> forall i :: 0 <= i < |subs| ==> !Grants(subs[i], vid)
  {
    if subs == [] then None
    else if Grants(subs[0], vid) then Some(subs[0])
    else ActiveSubscription(subs[1..], vid)
  }

  /** The subscription found is the FIRST one granting the variant. */
  lemma {:induction false} ActiveSubscriptionIsFirst(subs: seq<Subscription>, vid: string, i: nat)
    requires i < |subs| && Grants(subs[i], vid)
    requires forall j :: 0 <= j < i ==> !Grants(subs[j], vid)
    ensures ActiveSubscription(subs, vid) == Some(subs[i])
  {
    if i > 0 {
      ActiveSubscriptionIsFirst(subs[1..], vid, i - 1);
    }
  }

  /** `isActive = !!sub` */
  predicate IsActive(subs: seq<Subscription>, vid: string) {
    ActiveSubscription(subs, vid).Some?
  }

  /** The subscription id unsubscribe is called with (`sub && ...`): the id
      of the first subscription granting the variant, none when no
      subscription grants it. */
  function UnsubscribeTarget(subs: seq<Subscription>, vid: string): (r: Option<string>)
    ensures r.Some? <==> exists i :: 0 <= i < |subs| && Grants(subs[i], vid)
    ensures r.Some? ==> exists s :: s in subs && Grants(s, vid) && s.id == r.value
    ensures forall i :: 0 <= i < |subs| && Grants(subs[i], vid) && (forall j :: 0 <= j < i ==> !Grants(subs[j], vid)) ==>
      r == Some(subs[i].id)
  {
    forall i | 0 <= i < |subs| && Grants(subs[i], vid) && (forall j :: 0 <= j < i ==> !Grants(subs[j], vid))
      ensures ActiveSubscription(subs, vid) == Some(subs[i])
    {
      ActiveSubscriptionIsFirst(subs, vid, i);
    }
    match ActiveSubscription(subs, vid)
    case Some(s) => Some(s.id)
    case None => None
  }

  /** The error a subscribe or unsubscribe handler records for `vid`:
      `null` on success, `e.message` on failure. */
  function ErrorAfter(o: Outcome): (r: Option<string>)
    ensures o.Pass? ==> r == None
    ensures o.Fail? ==> r == Some(o.message)
  {
    match o
    case Pass => None
    case Fail(m) => Some(m)
  }

  class ShopScreen {
    const api: Backend
    var subscribeErrors: map<string, Option<string>>

    constructor (api: Backend)
      ensures this.api == api && subscribeErrors == map[]
    {
      this.api := api;
      subscribeErrors := map[];
    }

    /** `addSubscription(vid, 1)`, then record its error under `vid` only. */
    method HandleSubscribe(vid: string)
      modifies this`subscribeErrors, api
      ensures api.log == old(api.log) + [AddSubscription(vid, 1)] && api.script == Rest(old(api.script))
      ensures subscribeErrors == old(subscribeErrors)[vid := ErrorAfter(OutcomeAt(old(api.script), 0))]
    {
      var o := api.Send(AddSubscription(vid, 1));
      subscribeErrors := subscribeErrors[vid := ErrorAfter(o)];
    }

    /** `cancelSubscription(subId)`, then record its error under `vid` only. */
    method HandleUnsubscribe(subId: string, vid: string)
      modifies this`subscribeErrors, api
      ensures api.log == old(api.log) + [CancelSubscription(subId)] && api.script == Rest(old(api.script))
      ensures subscribeErrors == old(subscribeErrors)[vid := ErrorAfter(OutcomeAt(old(api.script), 0))]
    {
      var o := api.Send(CancelSubscription(subId));
      subscribeErrors := subscribeErrors[vid := ErrorAfter(o)];
    }

    /** A card's unsubscribe button: calls unsubscribe only when the variant
        has an active subscription, with that subscription's id. */
    method OnUnsubscribe(subs: seq<Subscription>, vid: string)
      modifies this`subscribeErrors, api
      ensures !IsActive(subs, vid) ==>
        api.log == old(api.log) && api.script == old(api.script) && subscribeErrors == old(subscribeErrors)
      ensures IsActive(subs, vid) ==>
        && api.log == old(api.log) + [CancelSubscription(ActiveSubscription(subs, vid).value.id)]
        && subscribeErrors == old(subscribeErrors)[vid := ErrorAfter(OutcomeAt(old(api.script), 0))]
    {
      var sub := ActiveSubscription(subs, vid);
      if sub.Some? {
        HandleUnsubscribe(sub.value.id, vid);
      }
    }
  }
}
