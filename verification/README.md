# Online boutique core, in Dafny

A model of the sequential core of a small microservice web shop (the Rust
"online boutique" demo). It covers the following:

- **Money** (`Monetary`): fixed-point money with `i64` units and `i32` nanos,
  and its operations `normalize`, `from_usd`, `Default`, `+`, `Sum` and
  `u32 * Money`. Rust's truncating `/` and `%` and its integer widths are
  written out in `FixedWidth`.
- **The checkout saga** (`Checkout`): get the cart; look up and convert the
  price of each line; quote shipping and convert the quote; total the order;
  charge the card; ship; empty the cart; send the confirmation mail.
  - It is a pure function over a record of collaborator oracles, each of which
    answers or fails.
  - It returns the result together with the trace of effects it issued.
  - Every `unwrap` of the source is an abort. After an abort nothing further
    is issued.
  - Mail is best effort: its failure only adds a warning to the trace.
- **What a checkout guarantees** (`CheckoutProperties`): these are stated
  against the collaborators' answers.
  - A placed order is built from the fetched cart, the catalog prices and
    the converted quote.
  - The trace has a fixed order.
  - The card is charged exactly once, with the order total.
  - An abort before the charge moves no money. An abort after it is not
    compensated.
  - A failed mail changes nothing else.
- **The message-based checkout service** (`CheckoutRpc`): the twin of the
  saga behind a request/response handler.
- **The cart store** (`CartStore`): a per-user versioned map from product id
  to quantity, with `add_item`, `get_cart` and `empty_cart`.
- **The ad service** (`AdService`): the fixed category table, category
  lookup, and the fallback to random ads.
- **The product catalog** (`ProductCatalog`, `ProductCatalogRpc`): listing,
  first-match lookup by id and case-insensitive substring search. The message
  handler and the client answer matching are included.

Two behaviours of the code are worth knowing before reading the contracts:

- `normalize` (`src/shared/money.rs:17-23`) carries whole units out of the
  nanos with truncating `/` and `%`. The remaining nanos keep the sign of the
  input nanos, whatever the sign of the units, so the signs of `units` and
  `nanos` need not agree.
- Emptying the cart after shipping is `unwrap`ped
  (`src/backend/checkout.rs:86-88`), so its failure aborts the checkout
  after the card was charged and the order shipped.

Arithmetic overflow is written as a `Failure(Overflow)` result, which is
what the panicking arithmetic of a debug build does. The `u32 as i32` cast
wraps in every build, and `FixedWidth.AsInt32` models it.

## Model

| member | source | states |
|---|---|---|
| FixedWidth.TDiv | src/shared/money.rs:20 | the quotient rounds toward zero: `\|q\|·b <= \|a\| < (\|q\|+1)·b`, and `q` has the sign of `a` |
| FixedWidth.TMod | src/shared/money.rs:21 | quotient times divisor plus remainder gives back the dividend; the remainder is smaller than the divisor in magnitude and takes the dividend's sign |
| FixedWidth.AsInt32 | src/shared/money.rs:92 | the wrapping cast `n as i32`: congruent to `n` modulo 2^32, the identity up to `i32::MAX`, negative above it |
| Monetary.Normalize | src/shared/money.rs:17-23 | fails (overflow panic) exactly when units plus the carried nanos leave `i64`. Otherwise it keeps the currency and the value, leaves `\|nanos\| < 10^9`, keeps the sign of the input nanos, and returns an already normalized amount unchanged |
| Monetary.NormalizeIdempotent | src/shared/money.rs:17-23 | normalizing a normalized result changes nothing |
| Monetary.FromUsd | src/shared/money.rs:25-32 | a success is in USD, is worth `dollars·10^9 + cents·10^7` nanos and is normalized. It can succeed only for `\|cents\| <= 214`, because `cents * 10_000_000` is an `i32`; it does succeed in that range when the dollars leave room for a carry |
| Monetary.Default | src/shared/money.rs:35-43 | zero US dollars, normalized |
| Monetary.Add | src/shared/money.rs:55-70 | a currency-mismatch panic exactly when the codes differ. A success keeps the code, is worth the sum of the values and is normalized |
| Monetary.AddNormalizedSucceeds | src/shared/money.rs:64-69 | for normalized operands of one currency the `i32` nanos sum cannot overflow, and the addition succeeds when the units sum leaves room for one carried unit |
| Monetary.AddCommutative | src/shared/money.rs:55-70 | `a + b` and `b + a` are equal field for field |
| Monetary.AddAssociativeOnValue | src/shared/money.rs:55-70 | when both groupings succeed, they give the same currency and the same value |
| Monetary.AddNotFieldwiseAssociative | src/shared/money.rs:64-69 | with nanos 9e8, 9e8 and -9e8 the two groupings give different fields: (1, -1e8) and (0, 9e8) |
| Monetary.SumFrom | src/shared/money.rs:79-81 | a successful fold keeps the seed's currency and is worth the seed plus every amount. Every amount is in the seed's currency |
| Monetary.Sum | src/shared/money.rs:73-84 | no amounts give `Default`, and one amount is returned as it is. A success has the first amount's currency and the total value. Any amount in another currency makes the sum fail |
| Monetary.SumFromSucceeds | src/shared/money.rs:79-81 | a one-currency fold of normalized amounts cannot fail while the absolute units plus the number of additions fit in `i64` |
| Monetary.SumSucceeds | src/shared/money.rs:73-84 | the same bound for `Sum` |
| Monetary.Mul | src/shared/money.rs:86-95 | it fails only by overflow. A success keeps the currency and is normalized. For `n <= i32::MAX` it is worth `n` times the value, and it succeeds when the nanos product fits `i32` and the units product leaves room for a carry |
| Monetary.MulZero | src/shared/money.rs:86-95 | `0 * m` is zero in `m`'s currency |
| Monetary.MulOne | src/shared/money.rs:86-95 | `1 * m` is `normalize(m)` |
| Monetary.MulNanosOverflow | src/shared/money.rs:92 | `3 * 0.9` overflows the `i32` nanos product and panics, although 2.70 is representable |
| Monetary.MulWrapsAboveInt32Max | src/shared/money.rs:92 | `(2^32 - 1) * 1 nano` wraps in `n as i32` and yields -1 nano instead of panicking |
| CartStore.DefaultCartData | src/backend/cart.rs:31-37 | the default cart has version 0 and no items |
| CartStore.GetOrDefault | src/backend/cart.rs:89 | the stored record of the user, or the default one when there is none |
| CartStore.ToCart | src/backend/cart.rs:39-52 | keeps the user id. There is exactly one line per stored product, with its stored quantity and no product twice, and every stored product appears |
| CartStore.AddItem | src/backend/cart.rs:76-86 | succeeds exactly when the read and the write go through and the `u32` sum does not overflow. A success raises that product's quantity by the item's quantity (from 0 when absent). It keeps the version, the other products and the other users. A failure writes nothing |
| CartStore.GetCart | src/backend/cart.rs:88-91 | succeeds exactly when the read goes through. A success is the user's cart: one line per stored product, with its quantity |
| CartStore.EmptyCart | src/backend/cart.rs:93-103 | succeeds exactly when the read and the write go through and the version does not overflow. A success bumps the version by one and clears the items, and leaves the other users alone. A failure writes nothing |
| CartStore.MissingCartIsEmpty | src/backend/cart.rs:88-91 | a user without a stored cart gets an empty one |
| CartStore.AddItemAccumulates | src/backend/cart.rs:78-84 | two successful additions of one product add up |
| CartStore.GetCartAfterEmpty | src/backend/cart.rs:93-103 | after a successful `empty_cart`, `get_cart` reports no items |
| AdService.AdsTableShape | src/backend/ad.rs:42-48 | the six categories; "kitchen" has the jar then the mug, and every other category has one ad |
| AdService.GetAdsByCategory | src/backend/ad.rs:55-60 | the category's list when it is known, otherwise nothing |
| AdService.AdsForKeysAppend | src/backend/ad.rs:78-83 | the ads of concatenated keys are the concatenated ads, duplicates kept |
| AdService.AdsForKeysMembership | src/backend/ad.rs:78-83 | an ad is served for the keys exactly when one of the keys is a known category listing it |
| AdService.GetRandomAds | src/backend/ad.rs:62-68 | exactly two ads, each listed under some category |
| AdService.GetAds | src/backend/ad.rs:76-92 | always `Ok` and never empty. With keys that name known categories it gives their ads in key order; otherwise it gives the random draw |
| AdService.AllAdsOfTableNonEmpty | src/backend/ad.rs:42-48 | whatever the table's iteration order, the random draw has ads to choose from |
| ProductCatalog.ToLower | src/backend/productcatalog.rs:52 | same length, each character lowercased |
| ProductCatalog.ToLowerIdempotent | src/backend/productcatalog.rs:52 | lowercasing twice is lowercasing once |
| ProductCatalog.ContainsIffOccurs | src/backend/productcatalog.rs:57-58 | `contains` holds exactly when the needle occurs at some offset |
| ProductCatalog.ContainsEmpty | src/backend/productcatalog.rs:57-58 | the empty query occurs in every text |
| ProductCatalog.ListProducts | src/backend/productcatalog.rs:34-37 | the whole catalog, in stored order |
| ProductCatalog.GetProduct | src/backend/productcatalog.rs:39-48 | the first product with the id. The "no such product" panic happens exactly when no product has it |
| ProductCatalog.Filter | src/backend/productcatalog.rs:53-61 | a subsequence of the catalog in which each matching product occurs as often as in the catalog and no other product occurs, so exactly the matching products in catalog order |
| ProductCatalog.SearchProducts | src/backend/productcatalog.rs:50-62 | a subsequence of the catalog in which every product whose lowercased name or description contains the lowercased query occurs as often as in the catalog, and no other product occurs |
| ProductCatalog.FilterAllMatch | src/backend/productcatalog.rs:56-59 | a filter every product passes keeps the whole catalog |
| ProductCatalog.SearchEmptyQueryListsAll | src/backend/productcatalog.rs:50-62 | the empty query returns the whole catalog |
| ProductCatalog.SearchIgnoresQueryCase | src/backend/productcatalog.rs:52 | searching for a query and for its lowercase gives the same result |
| ProductCatalogRpc.ListProducts | src/productcatalogservice/mod.rs:49-51 | the whole catalog |
| ProductCatalogRpc.GetProduct | src/productcatalogservice/mod.rs:53-61 | the first product with the id, or a panic exactly when there is none |
| ProductCatalogRpc.SearchProducts | src/productcatalogservice/mod.rs:63-74 | a subsequence of the catalog keeping every occurrence of each matching product and nothing else |
| ProductCatalogRpc.Handle | src/productcatalogservice/mod.rs:92-107 | each request is answered by the response of its own kind. A lookup fails exactly when the id is missing. A search answers every occurrence of each matching product, in catalog order |
| ProductCatalogRpc.ClientListProducts | src/productcatalogservice/mod.rs:117-123 | `Ok` exactly for a `ListProducts` response, carrying its products |
| ProductCatalogRpc.ClientGetProduct | src/productcatalogservice/mod.rs:125-131 | `Ok` exactly for a `GetProduct` response, carrying its product |
| ProductCatalogRpc.ClientSearchProducts | src/productcatalogservice/mod.rs:133-141 | `Ok` exactly for a `SearchProducts` response, carrying its results |
| ProductCatalogRpc.ClientGetProductThroughHandle | src/productcatalogservice/mod.rs:125-131 | a lookup through the messages gives the service's product, and `Err(())` when it is missing |
| ProductCatalogRpc.ClientListAndSearchThroughHandle | src/productcatalogservice/mod.rs:117-141 | listing and search through the messages give the service's own results |
| ProductCatalogRpc.ClientRejectsMismatchedResponse | src/productcatalogservice/mod.rs:117-141 | a response of another kind, or a transport error, becomes `Err(())` |
| Checkout.PrepOrderItems | src/backend/checkout.rs:90-114 | on success there is one order line per cart line, in order. Each line pairs the cart line with its product's converted price, after two answered calls per line. On failure every call but the last was answered, the last one failed and is blamed, and only lookups and conversions were issued |
| Checkout.PrepOrderItemsFailingLine | src/backend/checkout.rs:90-114 | a failed run stopped at some line `k`: the lines before it were looked up and converted in order, then line `k` was looked up and, when the catalog answered, its price converted, and nothing after that |
| Checkout.PrepOrderItemsCalls | src/backend/checkout.rs:97-107 | the calls come two per line, in line order: the product lookup, then the conversion of that product's price |
| Checkout.PrepareOrder | src/backend/checkout.rs:41-64 | a success holds the fetched cart's lines, their prices, and the converted quote for exactly those lines, after answered calls only. On failure every call but the last was answered, the last one failed and is blamed, and only lookups, conversions and the quote are issued |
| Checkout.QuoteShipping | src/backend/checkout.rs:52-57 | the quote for the fetched lines, then its conversion. A success carries the converted quote; a failure blames the failing call |
| Checkout.PrepareOrderCalls | src/backend/checkout.rs:41-64 | the preparation calls in order: the cart; the lookup and conversion per line; the quote for the fetched lines; its conversion |
| Checkout.PrepareOrderFailureCalls | src/backend/checkout.rs:41-64 | a failed preparation fetched the cart first. If the cart was fetched, the calls that follow are those of its lines in order up to the failing line, or those of all its lines followed by the failed quote for exactly those lines or the failed conversion of that quote |
| Checkout.AccumulateLineTotals | src/backend/checkout.rs:194-198 | a success keeps the seed's currency, all lines are in it, and (when no quantity wraps) the value is the seed plus the lines' `quantity·cost`. For one-currency lines a failure is an overflow |
| Checkout.ItemsTotal | src/backend/checkout.rs:194-198 | no lines give zero US dollars. A success is in the lines' one currency and is worth `Σ quantity·cost`. One-currency lines can only fail by overflow |
| Checkout.ItemsTotalIsSumOfLineTotals | src/backend/checkout.rs:194-198 | when no line product panics, the lazy `map(...).sum()` equals `Money::sum` of the line products |
| Checkout.OrderTotal | src/backend/checkout.rs:193-198 | shipping plus the item sum, in shipping's currency and normalized. It fails when the first line's currency differs from shipping's, and a one-currency order can only fail by overflow |
| Checkout.EmptyOrderTotal | src/backend/checkout.rs:193-198 | with no lines the total is shipping normalized when shipping is in USD, and a currency-mismatch panic otherwise |
| Checkout.Confirm | src/backend/checkout.rs:207-220 | the order carries the id, tracking id, localized shipping, address and lines. The mail is sent, and a warning is logged exactly when it fails; the result is the order either way |
| Checkout.ShipAndConfirm | src/backend/checkout.rs:203-220 | a failure is at shipping or emptying the cart, blames it and sends no mail. A success shipped the fetched lines, emptied the cart, and carries the tracking id |
| Checkout.ChargeAndShip | src/backend/checkout.rs:200-220 | a failure stops at its first failed call and sends no mail. A success carries the order id and address |
| Checkout.Settle | src/backend/checkout.rs:193-220 | a panicking total issues nothing more. Other failures stop at the failed call; no failure sends mail |
| Checkout.PlaceOrder | src/backend/checkout.rs:168-221 | every failure but the total's stops right after the one failed call and names it. A total panic comes after answered preparation calls only. No failure sends mail. A success carries the order id and the request's address. Which calls precede an early abort is stated by `CheckoutProperties.EarlyAbortChargesNothing` |
| CheckoutProperties.PlacedOrderMatchesCollaborators | src/backend/checkout.rs:184-213 | a placed order has one line per fetched cart line, priced by the catalog and converted. Its shipping cost is the converted quote for those lines, and its tracking id comes from shipping exactly those lines. The cart was emptied |
| CheckoutProperties.PlacedOrderTrace | src/backend/checkout.rs:168-221 | the whole trace of a success: cart; lookup and conversion per line; quote; conversion; charge on the request's card; shipping of the fetched lines; emptying; the mail of the returned order; a warning exactly when the mail failed |
| CheckoutProperties.ChargedOnceWithTotal | src/backend/checkout.rs:193-200 | a success charged the card exactly once. The amount is shipping plus `Σ quantity·cost`, normalized, in shipping's currency |
| CheckoutProperties.EarlyAbortChargesNothing | src/backend/checkout.rs:184-198 | an abort before the charge issued only lookups, conversions and the quote. A preparation abort's trace starts with the cart fetch and follows the fetched lines in order up to the failing call. A panicking total comes after exactly the preparation trace of the fetched cart |
| CheckoutProperties.DeclinedPaymentShipsNothing | src/backend/checkout.rs:184-205 | a declined charge is the last call and follows only preparation calls: nothing is shipped and the cart is not emptied. The trace is the whole preparation trace for the fetched lines, in order, then the charge of the order total |
| CheckoutProperties.LateAbortKeepsCharge | src/backend/checkout.rs:184-205 | a failure at shipping or emptying comes after preparation calls only and a charge that went through and stays. A failed shipment is the last call, so the cart is not emptied. The trace starts with the whole preparation trace, in order, then the charge of the order total |
| CheckoutProperties.PrepOrderItemsDependsOnLookups | src/backend/checkout.rs:90-114 | pricing the lines depends only on the catalog and currency answers |
| CheckoutProperties.ConfirmationFailureIgnored | src/backend/checkout.rs:215-220 | whatever the mail service answers, the result is the same and the trace differs at most by the trailing warning |
| CheckoutProperties.EmptyCartOutsideUsdPanics | src/backend/checkout.rs:193-198 | an empty cart checked out in a currency other than USD panics with a currency mismatch at the total, before any charge |
| CheckoutProperties.HonestConversionNeverMismatches | src/backend/checkout.rs:193-198 | when conversions answer in the requested currency, a non-empty order's total can only panic by overflow |
| CheckoutProperties.TwoItemOrderChargesTwentyThreeFifty | src/backend/checkout.rs:168-221 | two items at 10.00 USD with a 3.50 quote place the expected order and charge 23.50 as the sixth call |
| CheckoutRpc.Handle | src/checkoutservice/mod.rs:178-226 | the same fail-fast guarantees as the saga. A response wraps an order with the generated id and the request's address |
| CheckoutRpc.HandledOrderMatchesCollaborators | src/checkoutservice/mod.rs:195-215 | the response's order is built from the fetched cart, the catalog prices and the converted quote. Shipping got exactly the fetched lines, the cart was emptied, and the card was charged exactly once with the order total |
| CheckoutRpc.HandledOrderTrace | src/checkoutservice/mod.rs:178-226 | a successful request issues the calls of a placed order, in order |

## Left out

- Monetary.Mul: the value is stated only for `n <= i32::MAX`. Above it, the wrapping cast gives a wrong amount without a panic, and `MulWrapsAboveInt32Max` exhibits that instead.
- Checkout.AccumulateLineTotals: the value is stated only when no quantity exceeds `i32::MAX`, for the same reason.
- Checkout.ItemsTotal: the value is stated only when no quantity exceeds `i32::MAX`.
- Checkout.OrderTotal: the value is stated only when no quantity exceeds `i32::MAX`.
- CheckoutProperties.ChargedOnceWithTotal: the charged amount's value is stated only when no quantity exceeds `i32::MAX`.
- CheckoutRpc.HandledOrderMatchesCollaborators: the charged amount's value is stated only when no quantity exceeds `i32::MAX`, as for `ChargedOnceWithTotal`.
- AdService.GetRandomAds: the random generator is a parameter (`picks`), so the uniform distribution of the draw is not modelled.
- The replicated store behind the cart is not modelled: its `Version`/`Max` merge semantics and the CRDT client come from a library whose code is not part of this model. Storage is a plain per-user map, and whether each read and write succeeds is a parameter.
- Hash-map iteration order (cart lines, the ads of all categories) is a parameter constrained to list every key once.
- Currency conversion is an oracle. The service's arithmetic is floating point. `ConvertHonoursTarget` states the one property the model relies on: a conversion answers in the requested currency.
- The other services (payment, shipping, email, recommendation, currency) are oracles in `Collaborators`. Their RPC plumbing, the transport and serialization are not modelled.
- The order id comes from a random UUID. It is a parameter of `PlaceOrder` and `Handle`.
- Logging is not modelled, except the warning about a failed confirmation mail, which is part of the trace.
- Async execution, the HTTP frontend, its templates and the money formatter are not modelled.
- `to_lowercase` is modelled on ASCII letters only. Unicode case mapping is not modelled.
- The catalog is a parameter. Loading it from JSON is not modelled.
- `src/checkoutservice/mod.rs` and `src/productcatalogservice/mod.rs` use the currency service's `Money` type (`src/currencyservice/mod.rs:8-13`) rather than the shared one. Both are modelled with the shared `Money`. That type has no `Add`, `Mul` or `Sum`, so the total at `src/checkoutservice/mod.rs:195-200` is modelled with the shared type's arithmetic, which the written code does not provide.
- Release builds are not modelled. There the `i64` and `i32` additions and multiplications of `src/shared/money.rs:55-95` wrap silently and return a wrong amount instead of panicking. The same holds for the cart's `u32` additions: the quantity at `src/backend/cart.rs:81` and the version at `src/backend/cart.rs:97`. The model follows the debug build's panic, so `AddItem` and `EmptyCart` return a `Failure` there.
- `Collaborators` answers an identical call identically within one checkout. A transient failure of a repeated call is therefore not representable, for example converting the same price for two lines with one conversion failing and the other succeeding.
- The catalog client's `Err(())` for a panicking handler assumes that the panic reaches the client as a transport error. That behaviour belongs to the runtime, which is not part of this model; `src/productcatalogservice/mod.rs` maps both a response of the wrong kind and any transport error to `Err(())`, in the `_` arms at lines 121, 129 and 139.
- `src/main.rs` compiles neither `src/checkoutservice` nor `src/productcatalogservice`. Both are modelled as written, as twins of the backend checkout and catalog.
