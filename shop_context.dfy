/** The shop state store: the provider owns the two carts, the catalog and
    the account lists, and every action reads and updates them in place. */
module ShopContext {
  import opened Common
  import opened Entities
  import opened LocalCart
  import opened Remote

  /** The payload of a successful `viewInit` call, already unwrapped. */
  datatype InitData = InitData(
    user: Option<Profile>,
    products: seq<Product>,
    cart: ServerCart,
    addresses: Option<seq<Address>>,
    cards: Option<seq<Card>>,
    orders: Option<seq<Order>>)

  /** The local cart seeded from the server cart; missing `items` seeds `{}`. */
  function InitialCart(cart: ServerCart): (r: Cart)
    ensures Wellformed(r)
    ensures cart.items.None? ==> r == []
    ensures cart.items.Some? ==> r == Seeded(cart.items.value)
  {
    Seeded(cart.items.GetOr([]))
  }

  /** The `forEach` that builds `initCart`: one write per server line. */
  method SeedCart(items: seq<ServerItem>) returns (initCart: Cart)
    ensures initCart == Seeded(items)
  {
    initCart := [];
    for i := 0 to |items|
      invariant initCart == Seeded(items[..i])
    {
      assert items[..i + 1][..i] == items[..i];
      initCart := Put(initCart, ItemKey(items[i]), items[i].quantity);
    }
    assert items[..|items|] == items;
  }

  /** One `addToCart` per entry with a positive quantity, in cart order. */
  function AddCalls(c: Cart): seq<Call> {
    if c == [] then []
    else (if c[0].quantity > 0 then [AddToCart(c[0].variantId, c[0].quantity)] else []) + AddCalls(c[1..])
  }

  /** The calls `finalizeCart` issues when none of them fails. */
  function CheckoutCalls(c: Cart): (r: seq<Call>)
    ensures |r| >= 2 && r[0] == ClearCart && r[|r| - 1] == ConvertCart
    ensures r[1..|r| - 1] == AddCalls(c)
  {
    [ClearCart] + AddCalls(c) + [ConvertCart]
  }

  /** The items sent at checkout are the cart lines the cart page shows:
      the same entries, in the same order. */
  lemma {:induction false} AddCallsAreShownLines(c: Cart)
    ensures |AddCalls(c)| == |Positive(c)|
    ensures forall k :: 0 <= k < |AddCalls(c)| ==>
              AddCalls(c)[k] == AddToCart(Positive(c)[k].variantId, Positive(c)[k].quantity)
  {
    if c != [] {
      AddCallsAreShownLines(c[1..]);
      assert Positive(c) == (if IsPositive(c[0]) then [c[0]] else []) + Positive(c[1..]);
    }
  }

  /** The item calls hold `addToCart(v, q)` exactly for the entries
      `(v, q)` with `q > 0`. */
  lemma {:induction false} AddCallsMembers(c: Cart, v: string, q: int)
    ensures AddToCart(v, q) in AddCalls(c) <==> Entry(v, q) in c && q > 0
  {
    if c != [] {
      AddCallsMembers(c[1..], v, q);
      assert c == [c[0]] + c[1..];
    }
  }

  /** Checkout sends `addToCart(v, q)` exactly for the entries `(v, q)` with
      `q > 0`; entries with `q <= 0` are never sent. */
  lemma CheckoutSendsPositiveEntries(c: Cart, v: string, q: int)
    ensures AddToCart(v, q) in CheckoutCalls(c) <==> Entry(v, q) in c && q > 0
  {
    AddCallsMembers(c, v, q);
    assert CheckoutCalls(c) == [ClearCart] + (AddCalls(c) + [ConvertCart]);
  }

  lemma {:induction false} AddCallsStep(c: Cart, i: nat)
    requires i < |c|
    ensures AddCalls(c[i..]) ==
            (if c[i].quantity > 0 then [AddToCart(c[i].variantId, c[i].quantity)] else []) + AddCalls(c[i + 1..])
  {
    assert c[i..][1..] == c[i + 1..];
  }

  lemma {:induction false} RunStep(c: Call, rest: seq<Call>, script: seq<Outcome>)
    ensures Run([c] + rest, script) ==
            if OutcomeAt(script, 0).Fail? then Trace([c], false)
            else Trace([c] + Run(rest, Rest(script)).issued, Run(rest, Rest(script)).completed)
  {
    assert ([c] + rest)[0] == c;
    assert ([c] + rest)[1..] == rest;
  }

  /** A checkout run is `clearCart` followed, if that resolves, by the run
      of the item calls and `convertCart`. */
  lemma RunCheckout(c: Cart, script: seq<Outcome>)
    ensures var rest := Run(AddCalls(c) + [ConvertCart], Rest(script));
      Run(CheckoutCalls(c), script) ==
        if OutcomeAt(script, 0).Fail? then Trace([ClearCart], false)
        else Trace([ClearCart] + rest.issued, rest.completed)
  {
    assert CheckoutCalls(c) == [ClearCart] + (AddCalls(c) + [ConvertCart]);
    RunStep(ClearCart, AddCalls(c) + [ConvertCart], script);
  }

  /** The calls still due once the checkout loop has reached entry `i`. */
  function Remaining(c: Cart, i: nat): (r: seq<Call>)
    requires i <= |c|
    ensures i == 0 ==> r == AddCalls(c) + [ConvertCart]
    ensures i == |c| ==> r == [ConvertCart]
  {
    assert i == 0 ==> c[i..] == c;
    AddCalls(c[i..]) + [ConvertCart]
  }

  /** One turn of the checkout loop: an entry at 0 or below issues nothing;
      a positive one issues its `addToCart` and stops the chain if that is
      rejected. */
  lemma RemainingStep(c: Cart, i: nat, script: seq<Outcome>)
    requires i < |c|
    ensures c[i].quantity <= 0 ==> Run(Remaining(c, i), script) == Run(Remaining(c, i + 1), script)
    ensures c[i].quantity > 0 ==>
      var call := AddToCart(c[i].variantId, c[i].quantity);
      var rest := Run(Remaining(c, i + 1), Rest(script));
      Run(Remaining(c, i), script) ==
        if OutcomeAt(script, 0).Fail? then Trace([call], false)
        else Trace([call] + rest.issued, rest.completed)
  {
    AddCallsStep(c, i);
    if c[i].quantity > 0 {
      var call := AddToCart(c[i].variantId, c[i].quantity);
      assert Remaining(c, i) == [call] + Remaining(c, i + 1);
      RunStep(call, Remaining(c, i + 1), script);
    } else {
      assert AddCalls(c[i..]) == [] + AddCalls(c[i + 1..]);
      assert Remaining(c, i) == Remaining(c, i + 1);
    }
  }

  /** The last call of the loop: `convertCart` alone. */
  lemma RemainingEnd(c: Cart, script: seq<Outcome>)
    ensures Run(Remaining(c, |c|), script) == Trace([ConvertCart], OutcomeAt(script, 0).Pass?)
  {
    RunStep(ConvertCart, [], script);
    assert [ConvertCart] == [ConvertCart] + [];
  }

  /** The checkout loop has reached entry `i` having issued `done`, and the
      whole run `total` is `done` followed by the run of what remains. */
  ghost predicate Midway(c: Cart, i: nat, script: seq<Outcome>, done: seq<Call>, total: Trace)
    requires i <= |c|
  {
    var rest := Run(Remaining(c, i), script);
    total == Trace(done + rest.issued, rest.completed)
  }

  /** The checkout loop's invariant is kept by one turn: an entry at 0 or
      below issues nothing, a rejected `addToCart` ends the run, a resolved
      one is added to what was issued. */
  lemma CheckoutLoopStep(c: Cart, i: nat, script: seq<Outcome>, done: seq<Call>, total: Trace)
    requires i < |c| && Midway(c, i, script, done, total)
    ensures c[i].quantity <= 0 ==> Midway(c, i + 1, script, done, total)
    ensures c[i].quantity > 0 && OutcomeAt(script, 0).Fail? ==>
      total == Trace(done + [AddToCart(c[i].variantId, c[i].quantity)], false)
    ensures c[i].quantity > 0 && OutcomeAt(script, 0).Pass? ==>
      Midway(c, i + 1, Rest(script), done + [AddToCart(c[i].variantId, c[i].quantity)], total)
  {
    RemainingStep(c, i, script);
    if c[i].quantity > 0 && OutcomeAt(script, 0).Pass? {
      var call := AddToCart(c[i].variantId, c[i].quantity);
      var rest := Run(Remaining(c, i + 1), Rest(script));
      assert done + ([call] + rest.issued) == (done + [call]) + rest.issued;
    }
  }

  /** Before the loop nothing has been issued and the whole run remains. */
  lemma CheckoutLoopStart(c: Cart, script: seq<Outcome>)
    ensures Midway(c, 0, script, [], Run(AddCalls(c) + [ConvertCart], script))
  {
    var t := Run(AddCalls(c) + [ConvertCart], script);
    assert t == Trace([] + t.issued, t.completed);
  }

  /** Once the loop has passed every entry, the run ends with `convertCart`. */
  lemma CheckoutLoopEnd(c: Cart, script: seq<Outcome>, done: seq<Call>, total: Trace)
    requires Midway(c, |c|, script, done, total)
    ensures total == Trace(done + [ConvertCart], OutcomeAt(script, 0).Pass?)
  {
    RemainingEnd(c, script);
  }

  /** One turn of the checkout loop: `addToCart(vid, qty)` is awaited only
      for a positive quantity; `ok` is false exactly when it was rejected. */
  method SendEntry(api: Backend, e: Entry) returns (ok: bool)
    modifies api
    ensures e.quantity <= 0 ==> ok && api.log == old(api.log) && api.script == old(api.script)
    ensures e.quantity > 0 ==>
      && api.log == old(api.log) + [AddToCart(e.variantId, e.quantity)]
      && api.script == Rest(old(api.script))
      && ok == OutcomeAt(old(api.script), 0).Pass?
  {
    ok := true;
    if e.quantity > 0 {
      var o := api.Send(AddToCart(e.variantId, e.quantity));
      ok := o.Pass?;
    }
  }

  /** One turn of the checkout loop, with the bookkeeping that ties what
      has been issued so far to the whole run. */
  method SendTurn(api: Backend, cart: Cart, i: nat, ghost log0: seq<Call>, ghost done: seq<Call>, ghost total: Trace)
    returns (sent: bool, ghost done': seq<Call>)
    requires i < |cart| && api.log == log0 + done && Midway(cart, i, api.script, done, total)
    modifies api
    ensures api.log == log0 + done'
    ensures sent ==> Midway(cart, i + 1, api.script, done', total)
    ensures !sent ==> total == Trace(done', false)
  {
    CheckoutLoopStep(cart, i, api.script, done, total);
    sent := SendEntry(api, cart[i]);
    done' := done;
    if cart[i].quantity > 0 {
      done' := done + [AddToCart(cart[i].variantId, cart[i].quantity)];
    }
  }

  /** The body of the checkout after `clearCart` resolved: the loop over
      the cart's entries, then `convertCart`. */
  method SendLinesAndConvert(api: Backend, cart: Cart) returns (ok: bool)
    modifies api
    ensures var t := Run(AddCalls(cart) + [ConvertCart], old(api.script));
      api.log == old(api.log) + t.issued && ok == t.completed
  {
    ghost var s0 := api.script;
    ghost var total := Run(AddCalls(cart) + [ConvertCart], s0);
    ghost var log0 := api.log;
    ghost var done: seq<Call> := [];
    CheckoutLoopStart(cart, s0);
    var i := 0;
    while i < |cart|
      invariant 0 <= i <= |cart|
      invariant api.log == log0 + done
      invariant Midway(cart, i, api.script, done, total)
    {
      var sent;
      sent, done := SendTurn(api, cart, i, log0, done, total);
      if !sent {
        return false;
      }
      i := i + 1;
    }
    CheckoutLoopEnd(cart, api.script, done, total);
    var o := api.Send(ConvertCart);
    assert api.log == log0 + (done + [ConvertCart]);
    ok := o.Pass?;
  }

  /** `{ ...c, addressID: id }` */
  function WithAddress(c: ServerCart, id: string): (r: ServerCart)
    ensures r.addressID == Some(id)
    ensures r.items == c.items && r.cardID == c.cardID
  {
    c.(addressID := Some(id))
  }

  /** `{ ...c, cardID: id }` */
  function WithCard(c: ServerCart, id: string): (r: ServerCart)
    ensures r.cardID == Some(id)
    ensures r.items == c.items && r.addressID == c.addressID
  {
    c.(cardID := Some(id))
  }

  function HasOtherId(id: string): Address -> bool {
    (a: Address) => a.id != id
  }

  /** `prev.filter(a => a.id !== id)` */
  function WithoutAddress(xs: seq<Address>, id: string): (r: seq<Address>)
    ensures forall a :: a in r <==> a in xs && a.id != id
  {
    forall a | a in xs && a.id != id ensures a in Filter(xs, HasOtherId(id)) {
      FilterKeeps(xs, HasOtherId(id), a);
    }
    Filter(xs, HasOtherId(id))
  }

  /** Removing an address keeps the others in their order: removal
      distributes over concatenation, and a list without that id is kept
      as it is. */
  lemma RemoveAddressKeepsOrder(xs: seq<Address>, ys: seq<Address>, id: string)
    ensures WithoutAddress(xs + ys, id) == WithoutAddress(xs, id) + WithoutAddress(ys, id)
    ensures (forall i :: 0 <= i < |xs| ==> xs[i].id != id) ==> WithoutAddress(xs, id) == xs
  {
    FilterConcat(xs, ys, HasOtherId(id));
    if forall i :: 0 <= i < |xs| ==> xs[i].id != id {
      FilterAll(xs, HasOtherId(id));
    }
  }

  class ShopProvider {
    const api: Backend
    var products: seq<Product>
    var profile: Option<Profile>
    var serverCart: ServerCart
    var localCart: Cart
    var addresses: seq<Address>
    var cards: seq<Card>
    var orders: seq<Order>
    var loading: bool
    var error: Option<string>

    /** The local cart never holds a variant id twice. */
    ghost predicate Valid()
      reads this
    {
      Wellformed(localCart)
    }

    /** The `useState` initial values. */
    constructor (api: Backend)
      ensures Valid() && this.api == api
      ensures products == [] && profile == None && serverCart == EmptyServerCart && localCart == []
      ensures addresses == [] && cards == [] && orders == []
      ensures loading && error == None
    {
      this.api := api;
      products, profile, serverCart, localCart := [], None, EmptyServerCart, [];
      addresses, cards, orders := [], [], [];
      loading, error := true, None;
    }

    /** The mount effect: one `viewInit` call. On success every list is
        replaced from `data` and the local cart seeded from the server cart;
        on failure only `error` is set. `loading` ends false either way. */
    method Initialize(data: InitData)
      requires Valid()
      modifies this, api
      ensures Valid() && !loading
      ensures api.log == old(api.log) + [ViewInit] && api.script == Rest(old(api.script))
      ensures OutcomeAt(old(api.script), 0).Pass? ==> Loaded(data) && error == old(error)
      ensures OutcomeAt(old(api.script), 0).Fail? ==>
        && error == Some(OutcomeAt(old(api.script), 0).message)
        && products == old(products) && profile == old(profile) && serverCart == old(serverCart)
        && localCart == old(localCart) && addresses == old(addresses) && cards == old(cards)
        && orders == old(orders)
    {
      var o := api.Send(ViewInit);
      if o.Pass? {
        ApplyInit(data);
      } else {
        error := Some(o.message);
      }
      loading := false;
    }

    /** Every list holds what `data` delivered, `|| []` for missing lists,
        and the local cart is the one seeded from the server cart. */
    ghost predicate Loaded(data: InitData)
      reads this
    {
      && products == data.products && profile == data.user && serverCart == data.cart
      && localCart == InitialCart(data.cart)
      && addresses == data.addresses.GetOr([]) && cards == data.cards.GetOr([])
      && orders == data.orders.GetOr([])
    }

    /** The success handler of `viewInit`. */
    method ApplyInit(data: InitData)
      modifies this`products, this`profile, this`serverCart, this`localCart,
               this`addresses, this`cards, this`orders
      ensures Valid() && Loaded(data)
    {
      profile := data.user;
      products := data.products;
      serverCart := data.cart;
      var initCart := SeedCart(data.cart.items.GetOr([]));
      localCart := initCart;
      addresses := data.addresses.GetOr([]);
      cards := data.cards.GetOr([]);
      orders := data.orders.GetOr([]);
    }

    /** Key `v` now holds exactly `q`, zero included; no other key changes. */
    method UpdateLocalCartItem(v: string, q: int)
      requires Valid()
      modifies this`localCart
      ensures Valid()
      ensures localCart == Put(old(localCart), v, q)
      ensures forall w :: Lookup(localCart, w) == if w == v then Some(q) else Lookup(old(localCart), w)
    {
      PutWellformed(localCart, v, q);
      forall w ensures Lookup(Put(localCart, v, q), w) == if w == v then Some(q) else Lookup(localCart, w) {
        PutLookup(localCart, v, q, w);
      }
      localCart := Put(localCart, v, q);
    }

    /** The local cart becomes `{}`; clearing twice is clearing once. */
    method ClearLocalCart()
      modifies this`localCart
      ensures Valid() && localCart == []
    {
      localCart := [];
    }

    /** Push the local cart to the server and convert it: `clearCart`, then
        `addToCart` for every positive entry, then `convertCart`, each
        awaited. Only if all of them resolve are both carts reset. A
        rejection stops the sequence and is swallowed: no later call is
        issued and neither cart changes. */
    method FinalizeCart()
      requires Valid()
      modifies this`localCart, this`serverCart, api
      ensures Valid()
      ensures var t := Run(CheckoutCalls(old(localCart)), old(api.script));
        && api.log == old(api.log) + t.issued
        && (t.completed ==> localCart == [] && serverCart == EmptyServerCart)
        && (!t.completed ==> localCart == old(localCart) && serverCart == old(serverCart))
    {
      var cart := localCart;
      ghost var log0 := api.log;
      RunCheckout(cart, api.script);
      var o := api.Send(ClearCart);
      if o.Pass? {
        ghost var rest := Run(AddCalls(cart) + [ConvertCart], api.script);
        var ok := SendLinesAndConvert(api, cart);
        assert api.log == log0 + ([ClearCart] + rest.issued);
        if ok {
          localCart := [];
          serverCart := EmptyServerCart;
        }
      }
    }

    /** `setCartAddress(id)`; on success only `addressID` of the cached
        server cart changes. A rejection is passed on to the caller. */
    method SetShippingAddress(id: string) returns (o: Outcome)
      modifies this`serverCart, api
      ensures api.log == old(api.log) + [SetCartAddress(id)] && api.script == Rest(old(api.script))
      ensures o == OutcomeAt(old(api.script), 0)
      ensures serverCart == if o.Pass? then WithAddress(old(serverCart), id) else old(serverCart)
    {
      o := api.Send(SetCartAddress(id));
      if o.Pass? {
        serverCart := WithAddress(serverCart, id);
      }
    }

    /** `setCartCard(id)`; on success only `cardID` changes. */
    method SetPaymentCard(id: string) returns (o: Outcome)
      modifies this`serverCart, api
      ensures api.log == old(api.log) + [SetCartCard(id)] && api.script == Rest(old(api.script))
      ensures o == OutcomeAt(old(api.script), 0)
      ensures serverCart == if o.Pass? then WithCard(old(serverCart), id) else old(serverCart)
    {
      o := api.Send(SetCartCard(id));
      if o.Pass? {
        serverCart := WithCard(serverCart, id);
      }
    }

    /** `createAddress(addr)`; on success the address the backend returns,
        `created`, is appended. */
    method AddAddress(addr: Address, created: Address) returns (o: Outcome)
      modifies this`addresses, api
      ensures api.log == old(api.log) + [CreateAddress(addr)] && api.script == Rest(old(api.script))
      ensures o == OutcomeAt(old(api.script), 0)
      ensures addresses == if o.Pass? then old(addresses) + [created] else old(addresses)
    {
      o := api.Send(CreateAddress(addr));
      if o.Pass? {
        addresses := addresses + [created];
      }
    }

    /** `deleteAddress(id)`; on success every address with that id is
        dropped and the rest keep their order. */
    method RemoveAddress(id: string) returns (o: Outcome)
      modifies this`addresses, api
      ensures api.log == old(api.log) + [DeleteAddress(id)] && api.script == Rest(old(api.script))
      ensures o == OutcomeAt(old(api.script), 0)
      ensures addresses == if o.Pass? then WithoutAddress(old(addresses), id) else old(addresses)
    {
      o := api.Send(DeleteAddress(id));
      if o.Pass? {
        addresses := WithoutAddress(addresses, id);
      }
    }
  }
}
