/** The checkout saga (`src/backend/checkout.rs`). Every remote collaborator
    is an oracle in `Collaborators` that either answers (`Some`, `true`) or
    fails (`None`, `false`). A checkout returns its result together with the
    sequence of effects it issued, in order: the remote calls and the one
    warning it may log. Each `unwrap` of the source becomes an `Abort`, after
    which nothing further is issued. */
module Checkout {
  import opened FixedWidth
  import opened Results
  import opened Monetary
  import opened SharedTypes
  import CartStore

  /** Answers of the remote services. */
  datatype Collaborators = Collaborators(
    getCart: string -> Option<CartStore.Cart>,
    getProduct: string -> Option<Product>,
    convert: (Money, string) -> Option<Money>,
    getQuote: (Address, seq<CartItem>) -> Option<Money>,
    charge: (Money, CreditCardInfo) -> Option<string>,
    shipOrder: (Address, seq<CartItem>) -> Option<string>,
    emptyCart: string -> bool,
    sendOrderConfirmation: (string, OrderResult) -> bool)

  /** What a checkout does to the world, in the order it does it. */
  datatype Effect =
    | GetCart(userId: string)
    | GetProduct(productId: string)
    | Convert(from: Money, to: string)
    | GetQuote(address: Address, items: seq<CartItem>)
    | Charge(amount: Money, creditCard: CreditCardInfo)
    | ShipOrder(address: Address, items: seq<CartItem>)
    | EmptyCart(userId: string)
    | SendOrderConfirmation(email: string, order: OrderResult)
    | ConfirmationWarning(email: string)

  /** The step at which a checkout panicked. */
  datatype Abort =
    | CartUnavailable
    | ProductUnavailable(productId: string)
    | ConversionFailed
    | QuoteFailed
    | TotalPanicked(error: MoneyError)
    | PaymentFailed
    | ShippingFailed
    | CartNotEmptied

  /** A result and the effects issued to reach it. */
  datatype Step<T> = Step(result: Result<T, Abort>, effects: seq<Effect>)

  datatype CheckoutRequest = CheckoutRequest(
    userId: string,
    userCurrency: string,
    address: Address,
    email: string,
    creditCard: CreditCardInfo)

  /** `OrderPrep`: what the saga has gathered before charging. */
  datatype OrderPrep = OrderPrep(
    orderItems: seq<OrderItem>,
    cartItems: seq<CartItem>,
    shippingCostLocalized: Money)

  /** Whether the collaborator answered the call; a log line always
      "answers". */
  predicate Answered(env: Collaborators, e: Effect) {
    match e
    case GetCart(u) => env.getCart(u).Some?
    case GetProduct(id) => env.getProduct(id).Some?
    case Convert(m, to) => env.convert(m, to).Some?
    case GetQuote(a, items) => env.getQuote(a, items).Some?
    case Charge(m, card) => env.charge(m, card).Some?
    case ShipOrder(a, items) => env.shipOrder(a, items).Some?
    case EmptyCart(u) => env.emptyCart(u)
    case SendOrderConfirmation(email, order) => env.sendOrderConfirmation(email, order)
    case ConfirmationWarning(_) => true
  }

  predicate AllAnswered(env: Collaborators, es: seq<Effect>) {
    forall i :: 0 <= i < |es| ==> Answered(env, es[i])
  }

  /** Fail-fast: every call but the last was answered, and the last was not. */
  predicate StopsAtFirstFailure(env: Collaborators, es: seq<Effect>) {
    |es| > 0 && AllAnswered(env, es[..|es| - 1]) && !Answered(env, es[|es| - 1])
  }

  /** The abort names the call that failed: the last effect issued. */
  predicate Blames(a: Abort, es: seq<Effect>) {
    |es| > 0 &&
    var e := es[|es| - 1];
    match a
    case CartUnavailable => e.GetCart?
    case ProductUnavailable(id) => e == GetProduct(id)
    case ConversionFailed => e.Convert?
    case QuoteFailed => e.GetQuote?
    case TotalPanicked(_) => false
    case PaymentFailed => e.Charge?
    case ShippingFailed => e.ShipOrder?
    case CartNotEmptied => e.EmptyCart?
  }

  /** The calls made before any money moves. */
  predicate IsPreparationCall(e: Effect) {
    e.GetCart? || e.GetProduct? || e.Convert? || e.GetQuote?
  }

  predicate OnlyPreparationCalls(es: seq<Effect>) {
    forall i :: 0 <= i < |es| ==> IsPreparationCall(es[i])
  }

  /** The aborts of the preparation steps. */
  predicate IsPreparationAbort(a: Abort) {
    a.CartUnavailable? || a.ProductUnavailable? || a.ConversionFailed? || a.QuoteFailed?
  }

  /** Only product lookups and conversions. */
  predicate OnlyItemCalls(es: seq<Effect>) {
    forall i :: 0 <= i < |es| ==> es[i].GetProduct? || es[i].Convert?
  }

  lemma OnlyPreparationCallsAppend(a: seq<Effect>, b: seq<Effect>)
    requires OnlyPreparationCalls(a) && (OnlyPreparationCalls(b) || OnlyItemCalls(b))
    ensures OnlyPreparationCalls(a + b)
  {
    forall i | 0 <= i < |a + b| ensures IsPreparationCall((a + b)[i]) {
      if i >= |a| {
        assert (a + b)[i] == b[i - |a|];
      }
    }
  }

  /** `o` is the cart line `item` priced by the catalog and converted into
      `currency`. */
  predicate PricedAs(env: Collaborators, item: CartItem, currency: string, o: OrderItem) {
    && o.item == item
    && env.getProduct(item.productId).Some?
    && env.convert(env.getProduct(item.productId).value.priceUsd, currency) == Some(o.cost)
  }

  /** The two calls made for `item`, product lookup then conversion, sit at
      positions `k` and `k + 1`. */
  predicate ItemCallsAt(env: Collaborators, es: seq<Effect>, k: int, item: CartItem, currency: string) {
    && 0 <= k && k + 1 < |es|
    && es[k] == GetProduct(item.productId)
    && env.getProduct(item.productId).Some?
    && es[k + 1] == Convert(env.getProduct(item.productId).value.priceUsd, currency)
  }

  lemma AllAnsweredAppend(env: Collaborators, a: seq<Effect>, b: seq<Effect>)
    ensures AllAnswered(env, a + b) <==> AllAnswered(env, a) && AllAnswered(env, b)
  {
    if AllAnswered(env, a + b) {
      forall i | 0 <= i < |a| ensures Answered(env, a[i]) {
        assert (a + b)[i] == a[i];
      }
      forall i | 0 <= i < |b| ensures Answered(env, b[i]) {
        assert (a + b)[|a| + i] == b[i];
      }
    }
    if AllAnswered(env, a) && AllAnswered(env, b) {
      forall i | 0 <= i < |a + b| ensures Answered(env, (a + b)[i]) {
        if i < |a| {
          assert (a + b)[i] == a[i];
        } else {
          assert (a + b)[i] == b[i - |a|];
        }
      }
    }
  }

  lemma StopsAtFirstFailureAppend(env: Collaborators, a: seq<Effect>, b: seq<Effect>)
    requires AllAnswered(env, a) && StopsAtFirstFailure(env, b)
    ensures StopsAtFirstFailure(env, a + b)
  {
    assert (a + b)[..|a + b| - 1] == a + b[..|b| - 1];
    AllAnsweredAppend(env, a, b[..|b| - 1]);
  }

  /** `prep_order_items`: for each cart line in order, look the product up
      and convert its price into the customer's currency. */
  function PrepOrderItems(env: Collaborators, items: seq<CartItem>, currency: string): (r: Step<seq<OrderItem>>)
    decreases |items|
    ensures r.result.Success? ==>
              && |r.result.value| == |items|
              && (forall i :: 0 <= i < |items| ==> PricedAs(env, items[i], currency, r.result.value[i]))
              && |r.effects| == 2 * |items|
              && AllAnswered(env, r.effects)
    ensures r.result.Failure? ==>
              && StopsAtFirstFailure(env, r.effects)
              && Blames(r.result.error, r.effects)
              && (r.result.error.ProductUnavailable? || r.result.error == ConversionFailed)
    ensures OnlyItemCalls(r.effects)
  {
    if |items| == 0 then
      Step(Success([]), [])
    else
      var id := items[0].productId;
      match env.getProduct(id)
      case None => Step(Failure(ProductUnavailable(id)), [GetProduct(id)])
      case Some(product) =>
        var calls := [GetProduct(id), Convert(product.priceUsd, currency)];
        match env.convert(product.priceUsd, currency)
        case None => Step(Failure(ConversionFailed), calls)
        case Some(price) =>
          var rest := PrepOrderItems(env, items[1..], currency);
          AllAnsweredAppend(env, calls, rest.effects);
          if rest.result.Failure? then
            StopsAtFirstFailureAppend(env, calls, rest.effects);
            Step(Failure(rest.result.error), calls + rest.effects)
          else
            var orderItems := [OrderItem(items[0], price)] + rest.result.value;
            assert forall i :: 1 <= i < |items| ==> items[i] == items[1..][i - 1];
            Step(Success(orderItems), calls + rest.effects)
  }

  /** A successful `prep_order_items` over a non-empty list: the first
      line's lookup and conversion went through, then the rest of the list
      was priced. */
  lemma PrepOrderItemsFirst(env: Collaborators, items: seq<CartItem>, currency: string)
    requires |items| > 0 && PrepOrderItems(env, items, currency).result.Success?
    ensures env.getProduct(items[0].productId).Some?
    ensures var product := env.getProduct(items[0].productId).value;
            && env.convert(product.priceUsd, currency).Some?
            && PrepOrderItems(env, items[1..], currency).result.Success?
            && PrepOrderItems(env, items, currency).effects
               == [GetProduct(items[0].productId), Convert(product.priceUsd, currency)]
                  + PrepOrderItems(env, items[1..], currency).effects
  {
  }

  /** `es` starts with the lookup and conversion of each of `items`, in
      order, two calls per item. */
  predicate ItemCallsFrom(env: Collaborators, es: seq<Effect>, items: seq<CartItem>, currency: string) {
    forall i :: 0 <= i < |items| ==> ItemCallsAt(env, es, 2 * i, items[i], currency)
  }

  /** The first item's two calls, followed by the calls of the rest. */
  lemma ItemCallsCons(env: Collaborators, items: seq<CartItem>, currency: string,
                      calls: seq<Effect>, rest: seq<Effect>)
    requires |items| > 0 && env.getProduct(items[0].productId).Some?
    requires calls == [GetProduct(items[0].productId),
                       Convert(env.getProduct(items[0].productId).value.priceUsd, currency)]
    requires ItemCallsFrom(env, rest, items[1..], currency)
    ensures ItemCallsFrom(env, calls + rest, items, currency)
  {
    forall i | 0 <= i < |items|
      ensures ItemCallsAt(env, calls + rest, 2 * i, items[i], currency)
    {
      if i > 0 {
        assert items[i] == items[1..][i - 1];
        ItemCallsShift(env, calls, rest, [], 2 * (i - 1), items[1..][i - 1], currency);
        assert calls + rest + [] == calls + rest;
      }
    }
  }

  /** The calls of `prep_order_items` come in item order, two per item. */
  lemma {:induction false} PrepOrderItemsCalls(env: Collaborators, items: seq<CartItem>, currency: string)
    requires PrepOrderItems(env, items, currency).result.Success?
    ensures ItemCallsFrom(env, PrepOrderItems(env, items, currency).effects, items, currency)
    decreases |items|
  {
    if |items| > 0 {
      PrepOrderItemsFirst(env, items, currency);
      PrepOrderItemsCalls(env, items[1..], currency);
      var product := env.getProduct(items[0].productId).value;
      var calls := [GetProduct(items[0].productId), Convert(product.priceUsd, currency)];
      ItemCallsCons(env, items, currency, calls, PrepOrderItems(env, items[1..], currency).effects);
    }
  }

  /** A failed `prep_order_items` stopped at line `k`: the lines before it
      were each looked up and converted, in order, then line `k` was looked
      up and, when the catalog answered, its price converted. */
  predicate ItemFailureAt(env: Collaborators, items: seq<CartItem>, currency: string, es: seq<Effect>, k: int) {
    && 0 <= k < |items|
    && (|es| == 2 * k + 1 || |es| == 2 * k + 2)
    && ItemCallsFrom(env, es, items[..k], currency)
    && es[2 * k] == GetProduct(items[k].productId)
    && (|es| == 2 * k + 2 ==>
          && env.getProduct(items[k].productId).Some?
          && es[2 * k + 1] == Convert(env.getProduct(items[k].productId).value.priceUsd, currency))
  }

  /** The trace of a failed `prep_order_items` follows the lines in order up
      to the failing one. */
  predicate ItemFailureTrace(env: Collaborators, items: seq<CartItem>, currency: string, es: seq<Effect>) {
    exists k :: 0 <= k < |items| && ItemFailureAt(env, items, currency, es, k)
  }

  /** How a failed `prep_order_items` over a non-empty list ends: at the
      first line's lookup, at its conversion, or further down the list. */
  lemma PrepOrderItemsFailureFirst(env: Collaborators, items: seq<CartItem>, currency: string)
    requires |items| > 0 && PrepOrderItems(env, items, currency).result.Failure?
    ensures var id := items[0].productId;
            var es := PrepOrderItems(env, items, currency).effects;
            || (env.getProduct(id).None? && es == [GetProduct(id)])
            || (&& env.getProduct(id).Some?
                && var calls := [GetProduct(id), Convert(env.getProduct(id).value.priceUsd, currency)];
                   || (env.convert(env.getProduct(id).value.priceUsd, currency).None? && es == calls)
                   || (&& env.convert(env.getProduct(id).value.priceUsd, currency).Some?
                       && PrepOrderItems(env, items[1..], currency).result.Failure?
                       && es == calls + PrepOrderItems(env, items[1..], currency).effects))
  {
  }

  /** A failure further down the list, behind the first line's two calls. */
  lemma ItemFailureCons(env: Collaborators, items: seq<CartItem>, currency: string,
                        calls: seq<Effect>, rest: seq<Effect>, j: int)
    requires |items| > 0 && env.getProduct(items[0].productId).Some?
    requires calls == [GetProduct(items[0].productId),
                       Convert(env.getProduct(items[0].productId).value.priceUsd, currency)]
    requires ItemFailureAt(env, items[1..], currency, rest, j)
    ensures ItemFailureAt(env, items, currency, calls + rest, j + 1)
  {
    var k, es := j + 1, calls + rest;
    assert items[..k][1..] == items[1..][..j];
    ItemCallsCons(env, items[..k], currency, calls, rest);
    assert items[k] == items[1..][j];
    assert es[2 * k] == rest[2 * j];
    if |es| == 2 * k + 2 {
      assert es[2 * k + 1] == rest[2 * j + 1];
    }
  }

  /** The line at which `prep_order_items` stopped, with the calls issued
      for every line before it, in order. */
  lemma {:induction false} PrepOrderItemsFailingLine(env: Collaborators, items: seq<CartItem>, currency: string)
    returns (k: nat)
    requires PrepOrderItems(env, items, currency).result.Failure?
    ensures ItemFailureAt(env, items, currency, PrepOrderItems(env, items, currency).effects, k)
    decreases |items|
  {
    var id := items[0].productId;
    PrepOrderItemsFailureFirst(env, items, currency);
    if env.getProduct(id).None? || env.convert(env.getProduct(id).value.priceUsd, currency).None? {
      k := 0;
      assert items[..0] == [];
    } else {
      var calls := [GetProduct(id), Convert(env.getProduct(id).value.priceUsd, currency)];
      var j := PrepOrderItemsFailingLine(env, items[1..], currency);
      ItemFailureCons(env, items, currency, calls, PrepOrderItems(env, items[1..], currency).effects, j);
      k := j + 1;
    }
  }

  /** `prepare_order_items_and_shipping_quote_from_cart`: fetch the cart,
      price its lines, quote shipping for it and convert the quote. */
  function PrepareOrder(env: Collaborators, userId: string, currency: string, address: Address): (r: Step<OrderPrep>)
    ensures r.result.Success? ==>
              && env.getCart(userId).Some?
              && r.result.value.cartItems == env.getCart(userId).value.items
              && |r.result.value.orderItems| == |r.result.value.cartItems|
              && (forall i :: 0 <= i < |r.result.value.cartItems| ==>
                    PricedAs(env, r.result.value.cartItems[i], currency, r.result.value.orderItems[i]))
              && env.getQuote(address, r.result.value.cartItems).Some?
              && env.convert(env.getQuote(address, r.result.value.cartItems).value, currency)
                 == Some(r.result.value.shippingCostLocalized)
              && AllAnswered(env, r.effects)
    ensures r.result.Failure? ==>
              StopsAtFirstFailure(env, r.effects) && Blames(r.result.error, r.effects) && IsPreparationAbort(r.result.error)
    ensures OnlyPreparationCalls(r.effects)
  {
    var fetched := [GetCart(userId)];
    match env.getCart(userId)
    case None => Step(Failure(CartUnavailable), fetched)
    case Some(cart) =>
      var items := cart.items;
      var prepped := PrepOrderItems(env, items, currency);
      var afterItems := fetched + prepped.effects;
      AllAnsweredAppend(env, fetched, prepped.effects);
      OnlyPreparationCallsAppend(fetched, prepped.effects);
      if prepped.result.Failure? then
        StopsAtFirstFailureAppend(env, fetched, prepped.effects);
        Step(Failure(prepped.result.error), afterItems)
      else
        QuoteShipping(env, address, currency, items, prepped.result.value, afterItems)
  }

  /** `quote_shipping` for the cart lines, then `convert_currency` of the
      quote. */
  function QuoteShipping(env: Collaborators, address: Address, currency: string, items: seq<CartItem>,
                         orderItems: seq<OrderItem>, before: seq<Effect>): (r: Step<OrderPrep>)
    requires AllAnswered(env, before) && OnlyPreparationCalls(before)
    ensures r.result.Success? ==>
              && env.getQuote(address, items).Some?
              && env.convert(env.getQuote(address, items).value, currency).Some?
              && r.result.value == OrderPrep(orderItems, items, env.convert(env.getQuote(address, items).value, currency).value)
              && r.effects == before + [GetQuote(address, items), Convert(env.getQuote(address, items).value, currency)]
              && AllAnswered(env, r.effects)
    ensures r.result.Failure? ==>
              StopsAtFirstFailure(env, r.effects) && Blames(r.result.error, r.effects) && IsPreparationAbort(r.result.error)
    ensures OnlyPreparationCalls(r.effects)
  {
    var quoteCall := [GetQuote(address, items)];
    var quoted := before + quoteCall;
    OnlyPreparationCallsAppend(before, quoteCall);
    match env.getQuote(address, items)
    case None =>
      StopsAtFirstFailureAppend(env, before, quoteCall);
      Step(Failure(QuoteFailed), quoted)
    case Some(shippingUsd) =>
      var convertCall := [Convert(shippingUsd, currency)];
      var converted := quoted + convertCall;
      AllAnsweredAppend(env, before, quoteCall);
      OnlyPreparationCallsAppend(quoted, convertCall);
      match env.convert(shippingUsd, currency)
      case None =>
        StopsAtFirstFailureAppend(env, quoted, convertCall);
        Step(Failure(ConversionFailed), converted)
      case Some(shippingPrice) =>
        AllAnsweredAppend(env, quoted, convertCall);
        assert converted == before + [GetQuote(address, items), Convert(shippingUsd, currency)];
        Step(Success(OrderPrep(orderItems, items, shippingPrice)), converted)
  }

  /** The calls preparing an order for `items`: the cart, a product lookup
      and a conversion per line, the quote for those lines and its
      conversion. */
  predicate IsPreparationTrace(env: Collaborators, userId: string, currency: string, address: Address,
                               items: seq<CartItem>, es: seq<Effect>) {
    var n := |items|;
    && |es| == 2 * n + 3
    && es[0] == GetCart(userId)
    && (forall i :: 0 <= i < n ==> ItemCallsAt(env, es, 1 + 2 * i, items[i], currency))
    && env.getQuote(address, items).Some?
    && es[2 * n + 1] == GetQuote(address, items)
    && es[2 * n + 2] == Convert(env.getQuote(address, items).value, currency)
  }

  /** The preparation calls in order: cart, then product and conversion per
      line, then the quote for exactly the fetched lines and its
      conversion. */
  lemma PrepareOrderCalls(env: Collaborators, userId: string, currency: string, address: Address)
    requires PrepareOrder(env, userId, currency, address).result.Success?
    ensures var r := PrepareOrder(env, userId, currency, address);
            IsPreparationTrace(env, userId, currency, address, r.result.value.cartItems, r.effects)
  {
    var r := PrepareOrder(env, userId, currency, address);
    var items := env.getCart(userId).value.items;
    var prepped := PrepOrderItems(env, items, currency);
    assert prepped.result.Success?;
    var quote := env.getQuote(address, items).value;
    var tail := [GetQuote(address, items), Convert(quote, currency)];
    assert r.effects == [GetCart(userId)] + prepped.effects + tail;
    var k := 1 + |prepped.effects|;
    assert r.effects[k] == tail[0] && r.effects[k + 1] == tail[1];
    PrepOrderItemsCalls(env, items, currency);
    forall i | 0 <= i < |items|
      ensures ItemCallsAt(env, r.effects, 1 + 2 * i, items[i], currency)
    {
      ItemCallsShift(env, [GetCart(userId)], prepped.effects, tail, 2 * i, items[i], currency);
    }
  }

  /** A preparation that priced every line and then failed at the quote or
      at converting it: the item calls in order, the quote for exactly those
      lines and, when the quote was answered, its conversion. */
  predicate QuoteFailureTrace(env: Collaborators, address: Address, currency: string,
                              items: seq<CartItem>, es: seq<Effect>) {
    var n := |items|;
    && (|es| == 2 * n + 1 || |es| == 2 * n + 2)
    && ItemCallsFrom(env, es, items, currency)
    && es[2 * n] == GetQuote(address, items)
    && (|es| == 2 * n + 2 ==>
          && env.getQuote(address, items).Some?
          && es[2 * n + 1] == Convert(env.getQuote(address, items).value, currency))
  }

  /** The calls of a failed preparation: the cart first, then, when it was
      fetched, the calls for its lines in order up to the failing one, or
      all of them followed by the failed quote or its failed conversion. */
  predicate PreparationFailureTrace(env: Collaborators, userId: string, currency: string, address: Address,
                                    es: seq<Effect>) {
    && |es| > 0
    && es[0] == GetCart(userId)
    && (env.getCart(userId).None? ==> |es| == 1)
    && (env.getCart(userId).Some? ==>
          var items := env.getCart(userId).value.items;
          || ItemFailureTrace(env, items, currency, es[1..])
          || QuoteFailureTrace(env, address, currency, items, es[1..]))
  }

  /** Reading `QuoteFailureTrace` off the item calls and what follows them. */
  lemma QuoteFailureOfParts(env: Collaborators, address: Address, currency: string, items: seq<CartItem>,
                            itemCalls: seq<Effect>, tail: seq<Effect>)
    requires |itemCalls| == 2 * |items| && ItemCallsFrom(env, itemCalls, items, currency)
    requires || tail == [GetQuote(address, items)]
             || (env.getQuote(address, items).Some?
                 && tail == [GetQuote(address, items), Convert(env.getQuote(address, items).value, currency)])
    ensures QuoteFailureTrace(env, address, currency, items, itemCalls + tail)
  {
    var es := itemCalls + tail;
    forall i | 0 <= i < |items|
      ensures ItemCallsAt(env, es, 2 * i, items[i], currency)
    {
      ItemCallsShift(env, [], itemCalls, tail, 2 * i, items[i], currency);
      assert [] + itemCalls + tail == es;
    }
    assert es[2 * |items|] == tail[0];
    if |tail| == 2 {
      assert es[2 * |items| + 1] == tail[1];
    }
  }

  /** How a failed `QuoteShipping` ends: at the quote, or at converting it. */
  lemma QuoteShippingFailure(env: Collaborators, address: Address, currency: string, items: seq<CartItem>,
                             orderItems: seq<OrderItem>, before: seq<Effect>) returns (tail: seq<Effect>)
    requires AllAnswered(env, before) && OnlyPreparationCalls(before)
    requires QuoteShipping(env, address, currency, items, orderItems, before).result.Failure?
    ensures QuoteShipping(env, address, currency, items, orderItems, before).effects == before + tail
    ensures || tail == [GetQuote(address, items)]
            || (env.getQuote(address, items).Some?
                && tail == [GetQuote(address, items), Convert(env.getQuote(address, items).value, currency)])
  {
    if env.getQuote(address, items).None? {
      tail := [GetQuote(address, items)];
    } else {
      tail := [GetQuote(address, items), Convert(env.getQuote(address, items).value, currency)];
      assert before + [GetQuote(address, items)] + [Convert(env.getQuote(address, items).value, currency)]
          == before + tail;
    }
  }

  /** Once the cart is fetched, preparation prices its lines and, when that
      succeeds, quotes shipping for them. */
  lemma PrepareOrderFetched(env: Collaborators, userId: string, currency: string, address: Address)
    requires env.getCart(userId).Some?
    ensures var items := env.getCart(userId).value.items;
            var prepped := PrepOrderItems(env, items, currency);
            var r := PrepareOrder(env, userId, currency, address);
            && (prepped.result.Failure? ==> r.effects == [GetCart(userId)] + prepped.effects)
            && (prepped.result.Success? ==>
                  && AllAnswered(env, [GetCart(userId)] + prepped.effects)
                  && OnlyPreparationCalls([GetCart(userId)] + prepped.effects)
                  && r == QuoteShipping(env, address, currency, items, prepped.result.value,
                                        [GetCart(userId)] + prepped.effects))
  {
  }

  /** Reading `PreparationFailureTrace` off a failure among the item calls. */
  lemma PreparationFailureOfItems(env: Collaborators, userId: string, currency: string, address: Address,
                                  itemEffects: seq<Effect>, k: int, es: seq<Effect>)
    requires env.getCart(userId).Some?
    requires ItemFailureAt(env, env.getCart(userId).value.items, currency, itemEffects, k)
    requires es == [GetCart(userId)] + itemEffects
    ensures PreparationFailureTrace(env, userId, currency, address, es)
  {
    assert es[1..] == itemEffects;
  }

  /** Reading `PreparationFailureTrace` off a failure at the quote. */
  lemma PreparationFailureOfQuote(env: Collaborators, userId: string, currency: string, address: Address,
                                  itemCalls: seq<Effect>, tail: seq<Effect>, es: seq<Effect>)
    requires env.getCart(userId).Some?
    requires var items := env.getCart(userId).value.items;
             && |itemCalls| == 2 * |items| && ItemCallsFrom(env, itemCalls, items, currency)
             && (|| tail == [GetQuote(address, items)]
                 || (env.getQuote(address, items).Some?
                     && tail == [GetQuote(address, items), Convert(env.getQuote(address, items).value, currency)]))
    requires es == [GetCart(userId)] + itemCalls + tail
    ensures PreparationFailureTrace(env, userId, currency, address, es)
  {
    QuoteFailureOfParts(env, address, currency, env.getCart(userId).value.items, itemCalls, tail);
    assert es[1..] == itemCalls + tail;
  }

  /** A failed preparation issued the cart fetch first and then the calls
      for the fetched lines, in order, up to the one that failed. */
  lemma PrepareOrderFailureCalls(env: Collaborators, userId: string, currency: string, address: Address)
    requires PrepareOrder(env, userId, currency, address).result.Failure?
    ensures PreparationFailureTrace(env, userId, currency, address, PrepareOrder(env, userId, currency, address).effects)
  {
    var es := PrepareOrder(env, userId, currency, address).effects;
    if env.getCart(userId).Some? {
      var items := env.getCart(userId).value.items;
      var prepped := PrepOrderItems(env, items, currency);
      PrepareOrderFetched(env, userId, currency, address);
      if prepped.result.Failure? {
        var k := PrepOrderItemsFailingLine(env, items, currency);
        PreparationFailureOfItems(env, userId, currency, address, prepped.effects, k, es);
      } else {
        var before := [GetCart(userId)] + prepped.effects;
        var tail := QuoteShippingFailure(env, address, currency, items, prepped.result.value, before);
        PrepOrderItemsCalls(env, items, currency);
        PreparationFailureOfQuote(env, userId, currency, address, prepped.effects, tail, es);
      }
    }
  }

  /** Calls keep their relative positions inside a longer trace. */
  lemma ItemCallsShift(env: Collaborators, pre: seq<Effect>, es: seq<Effect>, post: seq<Effect>,
                       k: int, item: CartItem, currency: string)
    requires ItemCallsAt(env, es, k, item, currency)
    ensures ItemCallsAt(env, pre + es + post, |pre| + k, item, currency)
  {
    assert (pre + es + post)[|pre| + k] == es[k];
    assert (pre + es + post)[|pre| + k + 1] == es[k + 1];
  }

  /** `quantity * cost` of one order line. */
  function LineTotal(o: OrderItem): Result<Money, MoneyError> {
    Mul(o.item.quantity, o.cost)
  }

  /** What the order lines are worth, in nanos: the sum of
      `quantity * cost`. */
  function ItemsValue(items: seq<OrderItem>): int {
    if |items| == 0 then 0 else items[0].item.quantity * Value(items[0].cost) + ItemsValue(items[1..])
  }

  /** No quantity wraps in the `u32 as i32` cast of the nanos product. */
  predicate QuantitiesFitInt32(items: seq<OrderItem>) {
    forall i :: 0 <= i < |items| ==> items[i].item.quantity <= INT32_MAX
  }

  /** Every line is priced in `code`. */
  predicate PricedIn(items: seq<OrderItem>, code: string) {
    forall i :: 0 <= i < |items| ==> items[i].cost.currencyCode == code
  }

  /** The remaining loop of the lazy `.map(quantity * cost).sum()`: each
      line's product is computed just before it is added. */
  function AccumulateLineTotals(acc: Money, rest: seq<OrderItem>): (r: Result<Money, MoneyError>)
    decreases |rest|
    ensures r.Success? ==>
              && r.value.currencyCode == acc.currencyCode
              && (forall i :: 0 <= i < |rest| ==> rest[i].cost.currencyCode == acc.currencyCode)
    ensures r.Success? && QuantitiesFitInt32(rest) ==> Value(r.value) == Value(acc) + ItemsValue(rest)
    ensures r.Failure? && PricedIn(rest, acc.currencyCode) ==> r.error == Overflow
  {
    if |rest| == 0 then
      Success(acc)
    else
      match LineTotal(rest[0])
      case Failure(e) => Failure(e)
      case Success(x) =>
        match Add(acc, x)
        case Failure(e) => Failure(e)
        case Success(t) =>
          var r := AccumulateLineTotals(t, rest[1..]);
          assert forall i :: 1 <= i < |rest| ==> rest[i] == rest[1..][i - 1];
          r
  }

  /** `order_items.iter().map(|x| x.item.quantity * x.cost).sum()`. */
  function ItemsTotal(items: seq<OrderItem>): (r: Result<Money, MoneyError>)
    ensures |items| == 0 ==> r == Success(Default())
    ensures |items| > 0 && r.Success? ==>
              && r.value.currencyCode == items[0].cost.currencyCode
              && (forall i :: 0 <= i < |items| ==> items[i].cost.currencyCode == items[0].cost.currencyCode)
    ensures r.Success? && QuantitiesFitInt32(items) ==> Value(r.value) == ItemsValue(items)
    ensures r.Failure? && |items| > 0 && PricedIn(items, items[0].cost.currencyCode) ==> r.error == Overflow
  {
    if |items| == 0 then
      Success(Default())
    else
      match LineTotal(items[0])
      case Failure(e) => Failure(e)
      case Success(first) =>
        var r := AccumulateLineTotals(first, items[1..]);
        assert forall i :: 1 <= i < |items| ==> items[i] == items[1..][i - 1];
        r
  }

  /** The products of all lines, each assumed computed. */
  function LineTotals(items: seq<OrderItem>): seq<Money>
    requires forall i :: 0 <= i < |items| ==> LineTotal(items[i]).Success?
  {
    seq(|items|, i requires 0 <= i < |items| && LineTotal(items[i]).Success? => LineTotal(items[i]).value)
  }

  lemma {:induction false} AccumulateIsSumFrom(acc: Money, rest: seq<OrderItem>)
    requires forall i :: 0 <= i < |rest| ==> LineTotal(rest[i]).Success?
    ensures AccumulateLineTotals(acc, rest) == SumFrom(acc, LineTotals(rest))
    decreases |rest|
  {
    if |rest| > 0 {
      assert LineTotals(rest)[0] == LineTotal(rest[0]).value;
      assert LineTotals(rest)[1..] == LineTotals(rest[1..]);
      var x := LineTotal(rest[0]).value;
      if Add(acc, x).Success? {
        AccumulateIsSumFrom(Add(acc, x).value, rest[1..]);
      }
    }
  }

  /** When no line's product panics, the lazy sum is `Money::sum` of the
      line products, so it fails exactly when they mix currencies or
      overflow. */
  lemma ItemsTotalIsSumOfLineTotals(items: seq<OrderItem>)
    requires forall i :: 0 <= i < |items| ==> LineTotal(items[i]).Success?
    ensures ItemsTotal(items) == Sum(LineTotals(items))
  {
    if |items| > 0 {
      assert LineTotals(items)[1..] == LineTotals(items[1..]);
      AccumulateIsSumFrom(LineTotal(items[0]).value, items[1..]);
    }
  }

  /** `shipping_cost_localized + Σ quantity * cost`, the amount charged. */
  function OrderTotal(prep: OrderPrep): (r: Result<Money, MoneyError>)
    ensures r.Success? ==> r.value.currencyCode == prep.shippingCostLocalized.currencyCode && IsNormalized(r.value)
    ensures r.Success? && QuantitiesFitInt32(prep.orderItems) ==>
              Value(r.value) == Value(prep.shippingCostLocalized) + ItemsValue(prep.orderItems)
    ensures |prep.orderItems| > 0 && prep.orderItems[0].cost.currencyCode != prep.shippingCostLocalized.currencyCode
            ==> r.Failure?
    ensures |prep.orderItems| > 0 && PricedIn(prep.orderItems, prep.shippingCostLocalized.currencyCode) && r.Failure?
            ==> r.error == Overflow
  {
    match ItemsTotal(prep.orderItems)
    case Failure(e) => Failure(e)
    case Success(s) => Add(prep.shippingCostLocalized, s)
  }

  /** With no order lines the sum is zero US dollars, so the total panics
      with a currency mismatch unless shipping is priced in US dollars. */
  lemma EmptyOrderTotal(prep: OrderPrep)
    requires |prep.orderItems| == 0
    ensures prep.shippingCostLocalized.currencyCode == "USD" ==>
              OrderTotal(prep) == Normalize(prep.shippingCostLocalized)
    ensures prep.shippingCostLocalized.currencyCode != "USD" ==>
              OrderTotal(prep) == Failure(CurrencyMismatch(prep.shippingCostLocalized.currencyCode, "USD"))
  {
    var s := prep.shippingCostLocalized;
    assert Add(s, Default()) == Normalize(Money(s.currencyCode, s.units, s.nanos)) || s.currencyCode != "USD";
  }

  /** No confirmation mail is among the effects. */
  predicate NoConfirmationSent(es: seq<Effect>) {
    forall i :: 0 <= i < |es| ==> !es[i].SendOrderConfirmation?
  }

  lemma NoConfirmationSentAppend(a: seq<Effect>, b: seq<Effect>)
    requires NoConfirmationSent(a) && NoConfirmationSent(b)
    ensures NoConfirmationSent(a + b)
  {
    forall i | 0 <= i < |a + b| ensures !(a + b)[i].SendOrderConfirmation? {
      if i >= |a| {
        assert (a + b)[i] == b[i - |a|];
      }
    }
  }

  lemma PreparationSendsNothing(es: seq<Effect>)
    requires OnlyPreparationCalls(es)
    ensures NoConfirmationSent(es)
  {
    forall i | 0 <= i < |es| ensures !es[i].SendOrderConfirmation? {
      assert IsPreparationCall(es[i]);
    }
  }

  /** The tail of the saga once the cart is emptied: build the order and
      mail it; a failed mail is only logged as a warning. */
  function Confirm(env: Collaborators, orderId: string, req: CheckoutRequest, p: OrderPrep,
                   trackingId: string, before: seq<Effect>): (r: Step<OrderResult>)
    ensures r.result.Success?
    ensures r.result.value == OrderResult(orderId, trackingId, p.shippingCostLocalized, req.address, p.orderItems)
    ensures env.sendOrderConfirmation(req.email, r.result.value) ==>
              r.effects == before + [SendOrderConfirmation(req.email, r.result.value)]
    ensures !env.sendOrderConfirmation(req.email, r.result.value) ==>
              r.effects == before + [SendOrderConfirmation(req.email, r.result.value), ConfirmationWarning(req.email)]
  {
    var order := OrderResult(orderId, trackingId, p.shippingCostLocalized, req.address, p.orderItems);
    var sent := before + [SendOrderConfirmation(req.email, order)];
    if env.sendOrderConfirmation(req.email, order) then
      Step(Success(order), sent)
    else
      Step(Success(order), sent + [ConfirmationWarning(req.email)])
  }

  /** The saga after a successful charge: ship the fetched cart lines, empty
      the cart, confirm. */
  function ShipAndConfirm(env: Collaborators, orderId: string, req: CheckoutRequest, p: OrderPrep,
                          before: seq<Effect>): (r: Step<OrderResult>)
    requires AllAnswered(env, before) && NoConfirmationSent(before)
    ensures r.result.Failure? ==>
              && StopsAtFirstFailure(env, r.effects)
              && Blames(r.result.error, r.effects)
              && NoConfirmationSent(r.effects)
              && (r.result.error == ShippingFailed || r.result.error == CartNotEmptied)
    ensures r.result.Success? ==>
              && env.shipOrder(req.address, p.cartItems).Some?
              && env.emptyCart(req.userId)
              && r.result.value.shippingTrackingId == env.shipOrder(req.address, p.cartItems).value
  {
    var shipCall := [ShipOrder(req.address, p.cartItems)];
    var shipped := before + shipCall;
    match env.shipOrder(req.address, p.cartItems)
    case None =>
      StopsAtFirstFailureAppend(env, before, shipCall);
      Step(Failure(ShippingFailed), shipped)
    case Some(trackingId) =>
      AllAnsweredAppend(env, before, shipCall);
      var emptyCall := [EmptyCart(req.userId)];
      var emptied := shipped + emptyCall;
      if !env.emptyCart(req.userId) then
        StopsAtFirstFailureAppend(env, shipped, emptyCall);
        assert NoConfirmationSent(emptied) by {
          assert forall i :: 0 <= i < |before| ==> emptied[i] == before[i];
        }
        Step(Failure(CartNotEmptied), emptied)
      else
        Confirm(env, orderId, req, p, trackingId, emptied)
  }

  /** The saga once the order is prepared: total it, charge the card with
      the total, then ship and confirm. */
  function Settle(env: Collaborators, orderId: string, req: CheckoutRequest, p: OrderPrep,
                  before: seq<Effect>): (r: Step<OrderResult>)
    requires AllAnswered(env, before) && OnlyPreparationCalls(before)
    ensures r.result.Failure? && !r.result.error.TotalPanicked? ==>
              StopsAtFirstFailure(env, r.effects) && Blames(r.result.error, r.effects)
    ensures r.result.Failure? && r.result.error.TotalPanicked? ==> r.effects == before
    ensures r.result.Failure? ==> NoConfirmationSent(r.effects)
    ensures r.result.Success? ==>
              && r.result.value.orderId == orderId
              && r.result.value.shippingAddress == req.address
  {
    match OrderTotal(p)
    case Failure(e) => Step(Failure(TotalPanicked(e)), before)
    case Success(total) =>
      PreparationSendsNothing(before);
      ChargeAndShip(env, orderId, req, p, total, before)
  }

  /** Charge the total; only a charge that went through is followed by
      shipping. */
  function ChargeAndShip(env: Collaborators, orderId: string, req: CheckoutRequest, p: OrderPrep,
                         total: Money, before: seq<Effect>): (r: Step<OrderResult>)
    requires AllAnswered(env, before) && NoConfirmationSent(before)
    ensures r.result.Failure? ==>
              && StopsAtFirstFailure(env, r.effects)
              && Blames(r.result.error, r.effects)
              && NoConfirmationSent(r.effects)
    ensures r.result.Success? ==>
              && r.result.value.orderId == orderId
              && r.result.value.shippingAddress == req.address
  {
    var chargeCall := [Charge(total, req.creditCard)];
    var charged := before + chargeCall;
    NoConfirmationSentAppend(before, chargeCall);
    match env.charge(total, req.creditCard)
    case None =>
      StopsAtFirstFailureAppend(env, before, chargeCall);
      Step(Failure(PaymentFailed), charged)
    case Some(_) =>
      AllAnsweredAppend(env, before, chargeCall);
      ShipAndConfirm(env, orderId, req, p, charged)
  }

  /** `CheckoutService::checkout`: prepare, total, charge, ship, empty the
      cart, build the order, send the confirmation (whose failure is only
      logged) and return the order. */
  function PlaceOrder(env: Collaborators, orderId: string, req: CheckoutRequest): (r: Step<OrderResult>)
    ensures r.result.Failure? && !r.result.error.TotalPanicked? ==>
              StopsAtFirstFailure(env, r.effects) && Blames(r.result.error, r.effects)
    ensures r.result.Failure? && r.result.error.TotalPanicked? ==>
              AllAnswered(env, r.effects) && OnlyPreparationCalls(r.effects)
    ensures r.result.Failure? ==> NoConfirmationSent(r.effects)
    ensures r.result.Success? ==>
              && r.result.value.orderId == orderId
              && r.result.value.shippingAddress == req.address
  {
    var prep := PrepareOrder(env, req.userId, req.userCurrency, req.address);
    if prep.result.Failure? then
      Step(Failure(prep.result.error), prep.effects)
    else
      Settle(env, orderId, req, prep.result.value, prep.effects)
  }
}
