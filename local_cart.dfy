/** The local cart: a JavaScript object from variant id to quantity.
    Object property order is insertion order, so the cart is a sequence of
    entries with distinct keys; writing an existing key keeps its place. */
module LocalCart {
  import opened Common
  import opened Entities

  datatype Entry = Entry(variantId: string, quantity: int)

  type Cart = seq<Entry>

  /** `Object.keys(c)` */
  function Keys(c: Cart): (r: seq<string>)
    ensures |r| == |c|
    ensures forall k :: 0 <= k < |c| ==> r[k] == c[k].variantId
  {
    if c == [] then [] else [c[0].variantId] + Keys(c[1..])
  }

  /** No variant id occurs twice. */
  predicate Wellformed(c: Cart) {
    c != [] ==> c[0].variantId !in Keys(c[1..]) && Wellformed(c[1..])
  }

  /** `c[v]`, absent when `v` is not a key. */
  function Lookup(c: Cart, v: string): Option<int> {
    if c == [] then None
    else if c[0].variantId == v then Some(c[0].quantity)
    else Lookup(c[1..], v)
  }

  /** A key is present exactly when it is one of the cart's keys, and then
      the cart holds that entry. */
  lemma {:induction false} LookupKeys(c: Cart, v: string)
    ensures Lookup(c, v).None? <==> v !in Keys(c)
    ensures Lookup(c, v).Some? ==> Entry(v, Lookup(c, v).value) in c
  {
    if c != [] && c[0].variantId != v {
      LookupKeys(c[1..], v);
    }
  }

  /** `{ ...c, [v]: q }`: an existing key keeps its place, a new key goes
      last. */
  function Put(c: Cart, v: string, q: int): (r: Cart)
    ensures Keys(r) == if v in Keys(c) then Keys(c) else Keys(c) + [v]
  {
    if c == [] then [Entry(v, q)]
    else if c[0].variantId == v then [Entry(v, q)] + c[1..]
    else
      var rest := Put(c[1..], v, q);
      assert Keys([c[0]] + rest) == [c[0].variantId] + Keys(rest);
      [c[0]] + rest
  }

  /** After `Put(c, v, q)` key `v` holds exactly `q` (a zero is stored, not
      deleted) and every other key holds what it held before. */
  lemma {:induction false} PutLookup(c: Cart, v: string, q: int, w: string)
    requires Wellformed(c)
    ensures Lookup(Put(c, v, q), w) == if w == v then Some(q) else Lookup(c, w)
  {
    if c != [] && c[0].variantId != v && c[0].variantId != w {
      PutLookup(c[1..], v, q, w);
    }
  }

  /** Keys stay distinct. */
  lemma {:induction false} PutWellformed(c: Cart, v: string, q: int)
    requires Wellformed(c)
    ensures Wellformed(Put(c, v, q))
  {
    if c != [] && c[0].variantId != v {
      PutWellformed(c[1..], v, q);
    }
  }

  predicate IsPositive(e: Entry) {
    e.quantity > 0
  }

  /** Entries whose quantity is positive, in cart order
      (`Object.entries(c).filter(([_, qty]) => qty > 0)`). */
  function Positive(c: Cart): (r: seq<Entry>)
    ensures forall e :: e in r <==> e in c && e.quantity > 0
  {
    forall e | e in c && e.quantity > 0 ensures e in Filter(c, IsPositive) {
      FilterKeeps(c, IsPositive, e);
    }
    Filter(c, IsPositive)
  }

  /** `quantity + 1` */
  function Increment(q: int): (r: int)
    ensures r > q
  {
    q + 1
  }

  /** `Math.max(0, quantity - 1)`: one less, but never below zero. */
  function Decrement(q: int): (r: int)
    ensures r >= 0
    ensures q > 0 ==> r == q - 1
    ensures q <= 0 ==> r == 0
  {
    if q - 1 > 0 then q - 1 else 0
  }

  /** The key under which init stores a server line:
      `item.productVariantID || item.id`. */
  function ItemKey(item: ServerItem): (k: string)
    ensures Truthy(item.productVariantID) ==> k == item.productVariantID.value
    ensures !Truthy(item.productVariantID) ==> k == item.id
  {
    OrElse(item.productVariantID, item.id)
  }

  /** The cart built by writing each server line in turn. */
  function Seeded(items: seq<ServerItem>): (r: Cart)
    ensures Wellformed(r)
  {
    if items == [] then []
    else
      var last := items[|items| - 1];
      PutWellformed(Seeded(items[..|items| - 1]), ItemKey(last), last.quantity);
      Put(Seeded(items[..|items| - 1]), ItemKey(last), last.quantity)
  }

  /** A key maps to the quantity of the LAST server line with that key. */
  lemma {:induction false} SeededLast(items: seq<ServerItem>, i: nat)
    requires i < |items|
    requires forall j :: i < j < |items| ==> ItemKey(items[j]) != ItemKey(items[i])
    ensures Lookup(Seeded(items), ItemKey(items[i])) == Some(items[i].quantity)
  {
    var init := items[..|items| - 1];
    var last := items[|items| - 1];
    PutLookup(Seeded(init), ItemKey(last), last.quantity, ItemKey(items[i]));
    if i < |items| - 1 {
      SeededLast(init, i);
    }
  }

  /** A key that no server line carries is absent from the cart. */
  lemma {:induction false} SeededAbsent(items: seq<ServerItem>, v: string)
    requires forall j :: 0 <= j < |items| ==> ItemKey(items[j]) != v
    ensures Lookup(Seeded(items), v) == None
  {
    if items != [] {
      var init := items[..|items| - 1];
      var last := items[|items| - 1];
      PutLookup(Seeded(init), ItemKey(last), last.quantity, v);
      SeededAbsent(init, v);
    }
  }

  /** The keys of the server lines, in line order. */
  function ServerKeys(items: seq<ServerItem>): (r: seq<string>)
    ensures |r| == |items|
    ensures forall j :: 0 <= j < |items| ==> r[j] == ItemKey(items[j])
  {
    seq(|items|, j requires 0 <= j < |items| => ItemKey(items[j]))
  }

  /** Writing `k` adds `k` to the keys and no other key. */
  lemma PutKeys(c: Cart, k: string, q: int, v: string)
    ensures v in Keys(Put(c, k, q)) <==> v in Keys(c) || v == k
  {
  }

  lemma SeededStep(items: seq<ServerItem>)
    requires items != []
    ensures var last := items[|items| - 1];
      Seeded(items) == Put(Seeded(items[..|items| - 1]), ItemKey(last), last.quantity)
  {
  }

  lemma ServerKeysStep(items: seq<ServerItem>)
    requires items != []
    ensures ServerKeys(items) == ServerKeys(items[..|items| - 1]) + [ItemKey(items[|items| - 1])]
  {
  }

  lemma {:induction false} SeededServerKeys(items: seq<ServerItem>, v: string)
    ensures v in Keys(Seeded(items)) <==> v in ServerKeys(items)
  {
    if items != [] {
      var init := items[..|items| - 1];
      var last := items[|items| - 1];
      SeededServerKeys(init, v);
      SeededStep(items);
      ServerKeysStep(items);
      PutKeys(Seeded(init), ItemKey(last), last.quantity, v);
    }
  }

  /** The keys of the seeded cart are the server lines' keys, each once, in
      some order (the seeded cart is wellformed). */
  lemma SeededKeys(items: seq<ServerItem>, v: string)
    ensures v in Keys(Seeded(items)) <==> exists j :: 0 <= j < |items| && ItemKey(items[j]) == v
  {
    SeededServerKeys(items, v);
    if v in ServerKeys(items) {
      var j :| 0 <= j < |items| && ServerKeys(items)[j] == v;
    }
  }
}
