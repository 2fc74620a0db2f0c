# my-terminal-shop: cart and checkout logic, modelled in Dafny

This project models the client-side logic of the my-terminal-shop React storefront. It covers four areas:

- The shop state store kept by `ShopProvider`:
  - the local cart, a map from variant id to quantity, seeded from the server cart that the `viewInit` call returns;
  - quantity edits, which overwrite one key and store zeros;
  - the checkout sequence `finalizeCart`: clear the server cart, add each positive line, convert the cart;
  - the address and card selections on the cached server cart, and the address list.
- The derivations the pages make from that state:
  - the positive cart lines, and the "Cart Empty" view;
  - the quantity steppers `+1`, and `max(0, q - 1)`;
  - the owner lookup, which falls back to `'Unknown'` and price 0;
  - the product card's fallback chain for the variant id, and its price, name and colour defaults;
  - the catalog split into featured products and originals, which the shop page and the products page compute in two different ways;
  - subscription lookup, and the map of subscribe errors kept for each variant.
- The small load and refresh state machines of the subscriptions and orders sections.
- The splash-screen rule of the app shell, and its `hasSeenSplash` session flag.

The remote commerce API is a class `Remote.Backend` with two fields:

- `log` is the calls issued so far. It is the trace.
- `script` is the outcomes the backend will give to the next calls: resolve (`Pass`) or reject with a message (`Fail`). A call past the end of the script resolves.

`Remote.Run` is the reference meaning of a chain of awaited calls: the first rejection ends the chain. The data a resolving call returns is a parameter of the method that makes the call.

A JavaScript object keeps its keys in insertion order, so the local cart is a sequence of `(variantId, quantity)` entries with distinct keys (`LocalCart.Wellformed`). `Object.entries` and the checkout loop walk the entries in that order. JavaScript's `||` on an optional string treats both absence and `''` as false. `Common.Truthy`, `OrElse`, `OrZero` and `MessageOr` model that.

The code does not have the following behaviours, and the model does not add them:

- a persisted local cart that wins over the server cart at start-up;
- a five-step checkout session;
- an `isSubmitting` re-entry guard;
- deletion of entries whose quantity is zero or less. The code stores the zero (`src/context/ShopContext.jsx:40`), and the cart page only hides the line;
- a generation counter against stale `viewInit` responses.

## Model

| member | source | states |
|---|---|---|
| Common.AsList | src/components/SubscriptionsSection.jsx:21 | `Array.isArray(d) ? d : []`: an array payload is kept whole, anything else gives `[]` |
| Common.OrElse | src/pages/Cart.jsx:35 | `s \|\| d` on an optional string: the string when it is present and non-empty, otherwise the default |
| Common.OrZero | src/pages/Cart.jsx:36 | `n \|\| 0`: the number when present, otherwise 0 (a stored 0 also gives 0) |
| Common.MessageOr | src/components/SubscriptionsSection.jsx:24 | `err.message \|\| fallback`: the message unless it is empty |
| Common.Filter | src/pages/Shop.jsx:15 | `Array.prototype.filter`: never longer than its input; everything kept is from the input and satisfies the predicate |
| Common.FilterKeeps | src/pages/Shop.jsx:15 | every element of the input that satisfies the predicate is kept |
| Common.FilterConcat | src/pages/Shop.jsx:15 | filtering preserves order: filtering `a + b` is filtering `a`, then `b` |
| Common.FilterAll | src/pages/Shop.jsx:15 | a filter that every element satisfies returns its input unchanged |
| Common.FilterNone | src/pages/Shop.jsx:15 | a filter that no element satisfies returns `[]` |
| Common.FilterTwice | src/pages/Products.jsx:13-20 | filtering by `f` and then by `g` equals one filter by `f && g` |
| Common.FilterSplit | src/pages/Shop.jsx:19-27 | filtering by a predicate and by its negation splits the list into two disjoint parts whose multisets add up to the list |
| Common.FilterCounts | src/pages/Shop.jsx:19-27 | every element occurs in the two complementary filters together exactly as often as in the list |
| Entities.FirstVariant | src/components/ProductCard.jsx:17 | `variants?.[0]`: absent exactly when the product has no variant list or an empty one, otherwise the first variant |
| Entities.IsRequired | src/pages/Shop.jsx:15 | `p.subscription === 'required'` |
| Entities.IsFeatured | src/pages/Shop.jsx:20 | `p.tags?.featured`, false without tags |
| LocalCart.Keys | src/context/ShopContext.jsx:40 | the keys of the cart, in insertion order, one for each entry |
| LocalCart.LookupKeys | src/context/ShopContext.jsx:40 | `localCart[v]` is defined exactly when `v` is one of the cart's keys |
| LocalCart.Lookup | src/context/ShopContext.jsx:40 | `localCart[v]`, absent for a missing key; what it returns is stated by `LocalCart.LookupKeys`, `LocalCart.PutLookup` and `CartPage.LookupFindsEntry` |
| LocalCart.Put | src/context/ShopContext.jsx:40 | `{ ...lc, [v]: q }` keeps the key order: an existing key stays in place, a new key is appended |
| LocalCart.PutLookup | src/context/ShopContext.jsx:40 | after the write, key `v` holds exactly `q` (zero included), and every other key keeps its value |
| LocalCart.PutWellformed | src/context/ShopContext.jsx:40 | a write never creates a duplicate key |
| LocalCart.PutKeys | src/context/ShopContext.jsx:27 | after a write the keys are the old keys plus the written one |
| LocalCart.Positive | src/pages/Cart.jsx:11 | an entry is shown exactly when it is in the cart with a quantity above 0 |
| LocalCart.Increment | src/pages/Cart.jsx:43 | plus always produces a larger quantity (`q + 1`) |
| LocalCart.Decrement | src/pages/Cart.jsx:44 | minus never goes below 0, subtracts one from a positive quantity, and gives 0 at 0 or below |
| LocalCart.ItemKey | src/context/ShopContext.jsx:27 | `item.productVariantID \|\| item.id` |
| LocalCart.Seeded | src/context/ShopContext.jsx:25-28 | the cart built from the server items has no duplicate key |
| LocalCart.SeededLast | src/context/ShopContext.jsx:26-27 | each key holds the quantity of the LAST server item with that key |
| LocalCart.SeededAbsent | src/context/ShopContext.jsx:25-28 | a key that no server item has is not in the seeded cart |
| LocalCart.SeededKeys | src/context/ShopContext.jsx:25-28 | a key is in the seeded cart exactly when some server item has that key |
| LocalCart.SeededServerKeys | src/context/ShopContext.jsx:25-28 | the seeded cart's keys are the keys of the server items |
| Remote.RestShifts | src/context/ShopContext.jsx:51-66 | after one answered call, the outcome of the `i`-th next call is what was the `(i+1)`-th |
| Remote.Run | src/context/ShopContext.jsx:51-66 | the awaited chain, where the first rejection ends it; its properties are stated by `Remote.RunCompletes` and `Remote.RunStopsAtFirstRejection` |
| Remote.RunCompletes | src/context/ShopContext.jsx:51-66 | a chain of awaited calls completes exactly when none of its calls is rejected, and then every call is issued |
| Remote.RunStopsAtFirstRejection | src/context/ShopContext.jsx:51-66 | the calls issued are a prefix of the chain; if the run fails, the last call issued was rejected, every earlier one resolved, and no later call was issued |
| Remote.Backend.constructor | src/api/terminalClient.js:6-22 | a backend with an empty trace and the given outcomes |
| Remote.Backend.Send | src/api/terminalClient.js:6-22 | one request: appended to the trace; answered with the next scripted outcome |
| ShopContext.InitialCart | src/context/ShopContext.jsx:25-29 | `(data.cart.items \|\| [])` seeding: a missing item list gives the empty cart, otherwise the seeded cart; no duplicate key either way |
| ShopContext.SeedCart | src/context/ShopContext.jsx:25-28 | the `forEach` loop that builds `initCart` produces exactly the seeded cart (proved by loop invariant) |
| ShopContext.CheckoutCalls | src/context/ShopContext.jsx:53-59 | a checkout asks for `clearCart` first and `convertCart` last, with the cart's item calls in between |
| ShopContext.AddCalls | src/context/ShopContext.jsx:55-56 | one `addToCart` per positive entry in cart order; stated by `ShopContext.AddCallsAreShownLines` and `ShopContext.AddCallsMembers` |
| ShopContext.AddCallsAreShownLines | src/context/ShopContext.jsx:55-56 | the `addToCart` calls are, one for one and in order, the cart's positive entries |
| ShopContext.CheckoutSendsPositiveEntries | src/context/ShopContext.jsx:55-56 | `addToCart(v, q)` is among the checkout calls exactly when `(v, q)` is in the cart and `q > 0`; entries at 0 or below are never sent |
| ShopContext.RunCheckout | src/context/ShopContext.jsx:51-66 | a checkout run is `clearCart`, which either fails and stops, or is followed by the run of the item calls and `convertCart` |
| ShopContext.WithAddress | src/context/ShopContext.jsx:102 | `{ ...c, addressID: id }`: only `addressID` changes |
| ShopContext.WithCard | src/context/ShopContext.jsx:108 | `{ ...c, cardID: id }`: only `cardID` changes |
| ShopContext.WithoutAddress | src/context/ShopContext.jsx:97 | an address is kept exactly when it was in the list and its id differs |
| ShopContext.RemoveAddressKeepsOrder | src/context/ShopContext.jsx:97 | removal keeps the order of the rest, and a list without that id is left unchanged |
| ShopContext.ShopProvider.constructor | src/context/ShopContext.jsx:7-15 | the `useState` defaults: empty lists, `{}` cart, `{items: []}` server cart, no profile, loading, no error |
| ShopContext.ShopProvider.Initialize | src/context/ShopContext.jsx:18-36 | one `viewInit` call. On success every field is loaded from the data and the local cart is seeded. On failure only `error` becomes the message, and the cart stays as it was. `loading` is false afterwards either way |
| ShopContext.ShopProvider.ApplyInit | src/context/ShopContext.jsx:21-32 | the success handler: products, profile and server cart from the data, the local cart seeded, missing lists defaulted to `[]` |
| ShopContext.ShopProvider.UpdateLocalCartItem | src/context/ShopContext.jsx:39-42 | key `v` now holds exactly `q`, and no other key changes |
| ShopContext.ShopProvider.ClearLocalCart | src/context/ShopContext.jsx:45-47 | the local cart becomes `{}` whatever it held, so clearing is idempotent |
| ShopContext.ShopProvider.FinalizeCart | src/context/ShopContext.jsx:50-67 | the calls issued are the checkout chain up to its first rejection. Both carts are reset exactly when every call resolved; after a failure neither changes and nothing is rethrown |
| ShopContext.SendLinesAndConvert | src/context/ShopContext.jsx:55-59 | the loop over the entries and `convertCart` issue exactly the run of those calls, and report whether it completed |
| ShopContext.Remaining | src/context/ShopContext.jsx:55-59 | the calls still due at loop index `i`: all item calls and `convertCart` at the start, `convertCart` alone at the end |
| ShopContext.RemainingStep | src/context/ShopContext.jsx:55-56 | one turn: an entry at 0 or below leaves the run unchanged; a positive one issues its call and stops the chain if rejected |
| ShopContext.RemainingEnd | src/context/ShopContext.jsx:59 | after the loop, only `convertCart` is left, and the run completes exactly when it resolves |
| ShopContext.CheckoutLoopStep | src/context/ShopContext.jsx:55-56 | one turn keeps the loop invariant: a skipped entry issues nothing, a rejected call ends the run, a resolved one extends what was issued |
| ShopContext.CheckoutLoopEnd | src/context/ShopContext.jsx:59 | once every entry is passed, the run is what was issued followed by `convertCart` |
| ShopContext.SendEntry | src/context/ShopContext.jsx:55-56 | an entry at 0 or below sends nothing; a positive one sends exactly its `addToCart` and reports whether it resolved |
| ShopContext.SendTurn | src/context/ShopContext.jsx:55-56 | one turn of the loop keeps the issued log equal to the calls done so far and the rest of the run still due |
| ShopContext.AddCallsMembers | src/context/ShopContext.jsx:55-56 | `addToCart(v, q)` is among the item calls exactly when `(v, q)` is a cart entry with `q > 0` |
| ShopContext.ShopProvider.SetShippingAddress | src/context/ShopContext.jsx:100-103 | one `setCartAddress(id)`; on success only `addressID` changes, and a rejection leaves the cart as it was |
| ShopContext.ShopProvider.SetPaymentCard | src/context/ShopContext.jsx:106-109 | one `setCartCard(id)`; on success only `cardID` changes |
| ShopContext.ShopProvider.AddAddress | src/context/ShopContext.jsx:89-93 | one `createAddress`; on success the address returned is appended as one element |
| ShopContext.ShopProvider.RemoveAddress | src/context/ShopContext.jsx:95-98 | one `deleteAddress(id)`; on success exactly the addresses with that id are dropped |
| CartPage.FindVariant | src/pages/Cart.jsx:36 | `variants.find(v => v.id === vid)`: a found variant has that id, and none is found exactly when no variant has it |
| CartPage.FindVariantIsFirst | src/pages/Cart.jsx:36 | `find` returns the FIRST variant with that id |
| CartPage.Owns | src/pages/Cart.jsx:34 | `p.variants?.some(v => v.id === vid)`, false without variants |
| CartPage.Owner | src/pages/Cart.jsx:34 | the product found carries the variant, and none is found exactly when no product does |
| CartPage.OwnerIsFirst | src/pages/Cart.jsx:34 | the owner found is the first product in the catalog that carries the variant |
| CartPage.LineFor | src/pages/Cart.jsx:34-36 | an unknown variant shows `'Unknown'` at price 0; otherwise the owner's name (or `'Unknown'`) and that variant's price (or 0) |
| CartPage.Lines | src/pages/Cart.jsx:11 | one line for each positive entry, in cart order |
| CartPage.ShowsEmpty | src/pages/Cart.jsx:13-15 | the "Cart Empty" view; `CartPage.EmptyViewIff` says when it shows |
| CartPage.EmptyViewIff | src/pages/Cart.jsx:11-15 | the empty view appears exactly when no entry has a quantity above 0 |
| CartPage.LookupFindsEntry | src/context/ShopContext.jsx:40 | in a cart without duplicate keys, `localCart[v]` is the quantity stored in `v`'s entry |
| CartPage.MinusAtOneHidesLine | src/pages/Cart.jsx:44 | minus at quantity 1 stores 0 for the variant, and its line then disappears from the cart page |
| CartPage.HandleClear | src/pages/Cart.jsx:8 | the Clear button empties the local cart and does nothing else |
| CartPage.HandleCheckout | src/pages/Cart.jsx:9 | the Checkout button has exactly the effect of `finalizeCart` |
| CartPage.OnPlus | src/pages/Cart.jsx:43 | plus writes `quantity + 1` for the line's variant |
| CartPage.OnMinus | src/pages/Cart.jsx:44 | minus writes `max(0, quantity - 1)` for the line's variant |
| ProductCard.CardQuantity | src/components/ProductCard.jsx:3 | a missing `quantity` becomes 0; a supplied one is kept |
| ProductCard.HandlePlus | src/components/ProductCard.jsx:14 | fires exactly when `onPlus` is present, with `quantity + 1` |
| ProductCard.HandleMinus | src/components/ProductCard.jsx:15 | fires exactly when `onMinus` is present, with a value that is never negative: `quantity - 1` for a positive quantity, else 0 |
| ProductCard.CardVariantId | src/components/ProductCard.jsx:9-12 | `defaultVariantId`, else `defaultVariantID`, else the first variant's id, else none |
| ProductCard.CardPrice | src/components/ProductCard.jsx:17 | the first variant's price, or 0 without a first variant or a price |
| ProductCard.CardVariantName | src/components/ProductCard.jsx:18 | `variants?.[0]?.name || ''`: the first variant's name if non-empty, and `''` when there is no first variant or its name is missing or empty |
| ProductCard.BorderColor | src/components/ProductCard.jsx:7 | the tag colour if set and non-empty, otherwise `'#000000'` |
| ShopPage.FilteredProducts | src/pages/Shop.jsx:14-17 | `products.filter(p => p.subscription !== 'required')`; stated by `ShopPage.ShopPartition` |
| ShopPage.Featured | src/pages/Shop.jsx:19-22 | `filteredProducts.filter(p => p.tags?.featured)`; stated by `ShopPage.ShopPartition` and `ShopPage.ShopListsKeepOrder` |
| ShopPage.Originals | src/pages/Shop.jsx:24-27 | `filteredProducts.filter(p => !p.tags?.featured)`; stated by `ShopPage.ShopPartition` and `ShopPage.ShopListsKeepOrder` |
| ShopPage.ShopPartition | src/pages/Shop.jsx:14-27 | no subscription-only product is listed. `featured` and `originals` are disjoint, and together they are the filtered list with multiplicity |
| ShopPage.ShopListsKeepOrder | src/pages/Shop.jsx:14-27 | both lists keep catalog order |
| ShopPage.ShownQuantity | src/pages/Shop.jsx:59-60 | `localCart[variants[0].id] \|\| 0`: the stored quantity, or 0 when none is stored |
| ShopPage.PlusIncrementsShownQuantity | src/pages/Shop.jsx:60-68 | pressing plus on a card makes it show one more than before |
| ShopPage.Grants | src/pages/Shop.jsx:61 | `s.variants && s.variants[vid]` |
| ShopPage.ActiveSubscription | src/pages/Shop.jsx:61 | the subscription found grants the variant, and none is found exactly when no subscription grants it |
| ShopPage.ActiveSubscriptionIsFirst | src/pages/Shop.jsx:61 | `find` returns the FIRST subscription granting the variant |
| ShopPage.IsActive | src/pages/Shop.jsx:62 | `!!sub`; by `ShopPage.ActiveSubscription`, true exactly when some subscription grants the variant |
| ShopPage.UnsubscribeTarget | src/pages/Shop.jsx:61-73 | unsubscribe has a target exactly when some subscription grants the variant (`isActive`), and the target is the id of the FIRST granting subscription |
| ShopPage.ErrorAfter | src/pages/Shop.jsx:35-37 | `null` after success, the rejection's message after failure |
| ShopPage.ShopScreen.constructor | src/pages/Shop.jsx:7 | the error map starts empty |
| ShopPage.ShopScreen.HandleSubscribe | src/pages/Shop.jsx:32-39 | one `addSubscription(vid, 1)`; only the entry for `vid` in the error map changes |
| ShopPage.ShopScreen.HandleUnsubscribe | src/pages/Shop.jsx:41-48 | one `cancelSubscription(subId)`; only the entry for `vid` changes |
| ShopPage.ShopScreen.OnUnsubscribe | src/pages/Shop.jsx:73 | without an active subscription nothing is called and nothing changes; with one, that subscription is the one cancelled |
| ProductsPage.FeaturedPurchasable | src/pages/Products.jsx:14 | `p.tags?.featured && p.subscription !== 'required'` |
| ProductsPage.OriginalPurchasable | src/pages/Products.jsx:18 | `!p.tags?.featured && p.subscription !== 'required'` |
| ProductsPage.Featured | src/pages/Products.jsx:13-16 | the featured list in one filter; equal to the shop page's, by `ProductsPage.SameListsAsShopPage` |
| ProductsPage.Originals | src/pages/Products.jsx:17-20 | the originals list in one filter; equal to the shop page's, by `ProductsPage.SameListsAsShopPage` |
| ProductsPage.SameListsAsShopPage | src/pages/Products.jsx:13-20 | the one-step filters give the same two lists as the shop page's two-step filters, in the same order, and the two lists are disjoint |
| ProductsPage.CardShowsStoredQuantity | src/pages/Products.jsx:35-36 | a card shows exactly what was last written for its variant, zero included |
| SubscriptionsSection.WithoutSubscription | src/components/SubscriptionsSection.jsx:40 | a subscription is kept exactly when it was listed and its id differs |
| SubscriptionsSection.CancelKeepsOrder | src/components/SubscriptionsSection.jsx:39-41 | cancelling keeps the order of the rest, and cancelling the same id twice is cancelling it once |
| SubscriptionsSection.SubscriptionsPanel.constructor | src/components/SubscriptionsSection.jsx:6-8 | starts loading, with no error and an empty list |
| SubscriptionsSection.SubscriptionsPanel.Refresh | src/components/SubscriptionsSection.jsx:15-29 | one `getSubscriptions`. Success lists the data if it is an array, else `[]`, and clears the error. Failure empties the list and shows the message or `"Failed to refresh subscriptions"`. `loading` is false when it returns |
| SubscriptionsSection.SubscriptionsPanel.Cancel | src/components/SubscriptionsSection.jsx:31-48 | an empty id changes nothing and calls nothing. Otherwise there is one `cancelSubscription(id)`: success drops exactly that id, failure keeps the list and shows the message or `"Failed to cancel subscription"`. `loading` is false when it returns |
| OrdersSection.OrdersPanel.constructor | src/components/OrdersSection.jsx:6-8 | no orders, not loading, no error |
| OrdersSection.OrdersPanel.Refresh | src/components/OrdersSection.jsx:10-22 | one `getOrders`. Success lists the data if it is an array, else `[]`. Failure keeps the orders and shows the message or `"Failed to load orders"`. `loading` is false when it returns |
| App.IsDirectLoad | src/App.jsx:13 | the referrer is empty or the page's own origin |
| App.ShowsSplash | src/App.jsx:21 | shown only on `'/'`; always on a direct load of `'/'`; on `'/'` without the flag; never on `'/'` with the flag set when the load is not direct |
| App.AppContent.constructor | src/App.jsx:9 | the splash starts hidden; the flag is whatever session storage holds |
| App.AppContent.OnLocation | src/App.jsx:12-25 | the splash is raised exactly when the rule says it is shown, and the flag is then `'true'`; otherwise the flag and `showSplash` are untouched |
| App.AppContent.HandleSplashComplete | src/App.jsx:27-29 | the splash is hidden |

Proof helpers carry no row: `Common.FilterUnfold`, `LocalCart.SeededStep`, `LocalCart.ServerKeysStep`, `ShopContext.RunStep`, `ShopContext.AddCallsStep` and `ShopContext.CheckoutLoopStart` unfold one step of a definition, for the loop and induction proofs above.

## Left out

- The HTTP client (`src/api/terminalClient.js`), headers, the bearer token and response decoding are not modelled. Each call is an entry in the trace that resolves or rejects, and the data a successful call returns is a method parameter.
- The `res.data || res` unwrapping in `viewInit` and `addAddress` is not modelled: the parameter is the unwrapped value.
- A `viewInit` response whose `cart` is missing makes the success handler throw while reading `data.cart.items`. The model assumes `cart` is present.
- `data.products` is stored without a `|| []` default (`src/context/ShopContext.jsx:23`), unlike addresses, cards and orders. A `viewInit` response without `products` leaves it undefined, and the cart page and the shop page then throw on `products.find` and `products.filter`. The products are a sequence in the model, so it assumes `products` is present.
- `clearServerCart`, `convertServerCart`, `updateProfile` and the context's own `refreshOrders` are defined by the provider but not called by any of the modelled pages, so they are not modelled.
- `subscriptions`, `addSubscription`, `cancelSubscription`, `getSubscriptions` and `getOrders` are read from the context by the shop page and the account sections, but the provider does not supply them. They are modelled as backend calls (`AddSubscription`, `CancelSubscription`, `GetSubscriptions`, `GetOrders`) and as an input list of subscriptions. With the provider as written, `subscriptions.find` would throw when rendering.
- ShopPage.ShownQuantity: requires a first variant, because `product.variants[0].id` throws while rendering a product without variants. The same render-time error is behind the requires of `CardShowsStoredQuantity` and `PlusIncrementsShownQuantity`.
- ProductCard.BorderColor: requires tags, because `tags.color` throws while rendering a product without tags.
- Key order in the local cart is insertion order. JavaScript lists keys that look like array indices (`"1"`, `"42"`) first, in numeric order; that ordering is not modelled.
- Quantities are unbounded integers. `NaN`, non-number quantities and JavaScript's number precision are not modelled; `|| 0` replaces only a missing value, and a stored 0 reads as 0 either way.
- A rejection's message is a string. An error without a `message` (undefined rather than a string) is modelled as the empty message, which the `|| fallback` forms treat the same way.
- React scheduling is not modelled: the batching of state updates, intermediate renders while `loading` is true, interleaving between concurrent handlers, and effects after unmount. Each handler runs to completion on the state it reads.
- Logging (`console.log`, `console.error`) is not modelled.
- The splash screen animation, the price formatting `(x / 100).toFixed(2)`, `CartCard`, the account page's token import and reload, the home page and the navigation bar are rendering, timers, floating point or browser I/O, and are not modelled.
- "The rendered orders list is always an array" holds by typing: orders are a sequence in the model.
