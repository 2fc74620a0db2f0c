/** The cart page: which local-cart entries it lists, how each line is
    named and priced, and what its buttons ask the shop to do. */
module CartPage {
  import opened Common
  import opened Entities
  import opened LocalCart
  import opened Remote
  import opened ShopContext

  /** `variants.find(v => v.id === vid)` */
  function FindVariant(vs: seq<Variant>, vid: string): (r: Option<Variant>)
    ensures r.Some? ==> r.value in vs && r.value.id == vid
    ensures r.None? <==> forall i :: 0 <= i < |vs| ==> vs[i].id != vid
  {
    if vs == [] then None
    else if vs[0].id == vid then Some(vs[0])
    else FindVariant(vs[1..], vid)
  }

  /** The variant found is the FIRST one with that id. */
  lemma {:induction false} FindVariantIsFirst(vs: seq<Variant>, vid: string, i: nat)
    requires i < |vs| && vs[i].id == vid
    requires forall j :: 0 <= j < i ==> vs[j].id != vid
    ensures FindVariant(vs, vid) == Some(vs[i])
  {
    if i > 0 {
      FindVariantIsFirst(vs[1..], vid, i - 1);
    }
  }

  /** `p.variants?.some(v => v.id === vid)` */
  predicate Owns(p: Product, vid: string) {
    p.variants.Some? && FindVariant(p.variants.value, vid).Some?
  }

  /** `products.find(p => p.variants?.some(v => v.id === vid))` */
  function Owner(products: seq<Product>, vid: string): (r: Option<Product>)
    ensures r.Some? ==> r.value in products && Owns(r.value, vid)
    ensures r.None? <==> forall i :: 0 <= i < |products| ==> !Owns(products[i], vid)
  {
    if products == [] then None
    else if Owns(products[0], vid) then Some(products[0])
    else Owner(products[1..], vid)
  }

  /** The owner found is the FIRST product carrying the variant. */
  lemma {:induction false} OwnerIsFirst(products: seq<Product>, vid: string, i: nat)
    requires i < |products| && Owns(products[i], vid)
    requires forall j :: 0 <= j < i ==> !Owns(products[j], vid)
    ensures Owner(products, vid) == Some(products[i])
  {
    if i > 0 {
      OwnerIsFirst(products[1..], vid, i - 1);
    }
  }

  /** What one line of the cart page shows. */
  datatype Line = Line(variantId: string, name: string, price: int, quantity: int)

  /** An unknown variant is shown as `'Unknown'` at price 0; otherwise the
      owner's name (or `'Unknown'` if it has none) and the price of that
      variant within it (0 if it has none). */
  function LineFor(products: seq<Product>, e: Entry): (l: Line)
    ensures l.variantId == e.variantId && l.quantity == e.quantity
    ensures Owner(products, e.variantId).None? ==> l.name == "Unknown" && l.price == 0
    ensures Owner(products, e.variantId).Some? ==>
      var p := Owner(products, e.variantId).value;
      && l.name == OrElse(p.name, "Unknown")
      && l.price == OrZero(FindVariant(p.variants.value, e.variantId).value.price)
  {
    match Owner(products, e.variantId)
    case None => Line(e.variantId, "Unknown", 0, e.quantity)
    case Some(p) =>
      var v := FindVariant(p.variants.value, e.variantId).value;
      Line(e.variantId, OrElse(p.name, "Unknown"), OrZero(v.price), e.quantity)
  }

  /** The lines listed: one per positive entry, in cart order. */
  function Lines(products: seq<Product>, c: Cart): (r: seq<Line>)
    ensures |r| == |Positive(c)|
    ensures forall k :: 0 <= k < |r| ==> r[k] == LineFor(products, Positive(c)[k])
  {
    var shown := Positive(c);
    seq(|shown|, k requires 0 <= k < |shown| => LineFor(products, shown[k]))
  }

  /** The "Cart Empty" view. */
  predicate ShowsEmpty(c: Cart) {
    Positive(c) == []
  }

  /** The empty view appears exactly when no entry has a positive quantity,
      however many zero entries the cart still stores. */
  lemma EmptyViewIff(c: Cart)
    ensures ShowsEmpty(c) <==> forall i :: 0 <= i < |c| ==> c[i].quantity <= 0
  {
    if !ShowsEmpty(c) {
      assert Positive(c)[0] in Positive(c);
    }
    if exists i :: 0 <= i < |c| && c[i].quantity > 0 {
      var i :| 0 <= i < |c| && c[i].quantity > 0;
      assert c[i] in Positive(c);
    }
  }

  /** In a wellformed cart an entry is what lookup finds for its key. */
  lemma {:induction false} LookupFindsEntry(c: Cart, e: Entry)
    requires Wellformed(c) && e in c
    ensures Lookup(c, e.variantId) == Some(e.quantity)
  {
    if c[0] != e {
      var k :| 0 <= k < |c[1..]| && c[1..][k] == e;
      assert Keys(c[1..])[k] == e.variantId;
      LookupFindsEntry(c[1..], e);
    }
  }

  /** Minus on a line of quantity 1 stores a zero for that variant, which
      then drops out of the listed lines. */
  lemma MinusAtOneHidesLine(c: Cart, v: string)
    requires Wellformed(c) && Lookup(c, v) == Some(1)
    ensures Lookup(Put(c, v, Decrement(1)), v) == Some(0)
    ensures forall k :: 0 <= k < |Positive(Put(c, v, Decrement(1)))| ==>
              Positive(Put(c, v, Decrement(1)))[k].variantId != v
  {
    var r := Put(c, v, Decrement(1));
    PutWellformed(c, v, Decrement(1));
    PutLookup(c, v, Decrement(1), v);
    forall k | 0 <= k < |Positive(r)| ensures Positive(r)[k].variantId != v {
      var e := Positive(r)[k];
      assert e in Positive(r);
      LookupFindsEntry(r, e);
    }
  }

  /** The Clear button: `clearLocalCart()` and nothing else. */
  method HandleClear(shop: ShopProvider)
    modifies shop`localCart
    ensures shop.Valid() && shop.localCart == []
  {
    shop.ClearLocalCart();
  }

  /** The Checkout button: `finalizeCart()` and nothing else. */
  method HandleCheckout(shop: ShopProvider)
    requires shop.Valid()
    modifies shop`localCart, shop`serverCart, shop.api
    ensures shop.Valid()
    ensures var t := Run(CheckoutCalls(old(shop.localCart)), old(shop.api.script));
      && shop.api.log == old(shop.api.log) + t.issued
      && (t.completed ==> shop.localCart == [] && shop.serverCart == EmptyServerCart)
      && (!t.completed ==> shop.localCart == old(shop.localCart) && shop.serverCart == old(shop.serverCart))
  {
    shop.FinalizeCart();
  }

  /** A line's plus button writes `quantity + 1` for its variant. */
  method OnPlus(shop: ShopProvider, line: Line)
    requires shop.Valid()
    modifies shop`localCart
    ensures shop.Valid()
    ensures shop.localCart == Put(old(shop.localCart), line.variantId, Increment(line.quantity))
  {
    shop.UpdateLocalCartItem(line.variantId, Increment(line.quantity));
  }

  /** A line's minus button writes `Math.max(0, quantity - 1)`. */
  method OnMinus(shop: ShopProvider, line: Line)
    requires shop.Valid()
    modifies shop`localCart
    ensures shop.Valid()
    ensures shop.localCart == Put(old(shop.localCart), line.variantId, Decrement(line.quantity))
  {
    shop.UpdateLocalCartItem(line.variantId, Decrement(line.quantity));
  }
}
