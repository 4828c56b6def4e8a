/** What a checkout guarantees, stated against the collaborators' answers
    rather than against the saga's own steps. */
module CheckoutProperties {
  import opened FixedWidth
  import opened Results
  import opened Monetary
  import opened SharedTypes
  import CartStore
  import opened Checkout

  /** The currency service answers in the currency it was asked for. */
  ghost predicate ConvertHonoursTarget(env: Collaborators) {
    forall m: Money, to: string :: env.convert(m, to).Some? ==> env.convert(m, to).value.currencyCode == to
  }

  /** `amount` is what the order costs: shipping plus every line's
      `quantity * cost`, normalized, in the shipping cost's currency. */
  predicate IsOrderTotal(amount: Money, o: OrderResult) {
    && amount.currencyCode == o.shippingCost.currencyCode
    && IsNormalized(amount)
    && (QuantitiesFitInt32(o.items) ==> Value(amount) == Value(o.shippingCost) + ItemsValue(o.items))
  }

  /** A checkout is its preparation followed, when that succeeds, by
      `Settle`. */
  lemma PlaceOrderPrepared(env: Collaborators, orderId: string, req: CheckoutRequest) returns (prep: Step<OrderPrep>)
    ensures prep == PrepareOrder(env, req.userId, req.userCurrency, req.address)
    ensures prep.result.Success? ==>
              && AllAnswered(env, prep.effects)
              && OnlyPreparationCalls(prep.effects)
              && PlaceOrder(env, orderId, req) == Settle(env, orderId, req, prep.result.value, prep.effects)
    ensures prep.result.Failure? ==> PlaceOrder(env, orderId, req) == Step(Failure(prep.result.error), prep.effects)
  {
    prep := PrepareOrder(env, req.userId, req.userCurrency, req.address);
  }

  /** Once the total and the charge succeed, settling continues as
      `ShipAndConfirm`. */
  lemma SettleCharged(env: Collaborators, orderId: string, req: CheckoutRequest, p: OrderPrep,
                      before: seq<Effect>, total: Money)
    requires AllAnswered(env, before) && OnlyPreparationCalls(before)
    requires OrderTotal(p) == Success(total) && env.charge(total, req.creditCard).Some?
    ensures AllAnswered(env, before + [Charge(total, req.creditCard)])
    ensures NoConfirmationSent(before + [Charge(total, req.creditCard)])
    ensures Settle(env, orderId, req, p, before)
            == ShipAndConfirm(env, orderId, req, p, before + [Charge(total, req.creditCard)])
  {
    AllAnsweredAppend(env, before, [Charge(total, req.creditCard)]);
    PreparationSendsNothing(before);
    NoConfirmationSentAppend(before, [Charge(total, req.creditCard)]);
    assert Settle(env, orderId, req, p, before) == ChargeAndShip(env, orderId, req, p, total, before);
  }

  /** Once the preparation, the total and the charge succeed, the checkout
      continues as `ShipAndConfirm`. */
  lemma PlaceOrderPastCharge(env: Collaborators, orderId: string, req: CheckoutRequest,
                             prep: Step<OrderPrep>, total: Money)
    requires prep == PrepareOrder(env, req.userId, req.userCurrency, req.address)
    requires prep.result.Success? && OrderTotal(prep.result.value) == Success(total)
    requires env.charge(total, req.creditCard).Some?
    ensures AllAnswered(env, prep.effects + [Charge(total, req.creditCard)])
    ensures NoConfirmationSent(prep.effects + [Charge(total, req.creditCard)])
    ensures PlaceOrder(env, orderId, req)
            == ShipAndConfirm(env, orderId, req, prep.result.value, prep.effects + [Charge(total, req.creditCard)])
  {
    var prep' := PlaceOrderPrepared(env, orderId, req);
    SettleCharged(env, orderId, req, prep.result.value, prep.effects, total);
  }

  /** Once shipping and emptying the cart succeed, `ShipAndConfirm` ends in
      `Confirm`. */
  lemma ShipAndConfirmPastShipping(env: Collaborators, orderId: string, req: CheckoutRequest,
                                   p: OrderPrep, before: seq<Effect>)
    requires AllAnswered(env, before) && NoConfirmationSent(before)
    requires env.shipOrder(req.address, p.cartItems).Some? && env.emptyCart(req.userId)
    ensures ShipAndConfirm(env, orderId, req, p, before)
            == Confirm(env, orderId, req, p, env.shipOrder(req.address, p.cartItems).value,
                       before + [ShipOrder(req.address, p.cartItems), EmptyCart(req.userId)])
  {
    assert before + [ShipOrder(req.address, p.cartItems)] + [EmptyCart(req.userId)]
        == before + [ShipOrder(req.address, p.cartItems), EmptyCart(req.userId)];
  }

  /** A checkout that got past the charge: the preparation, the total and
      the charge all succeeded, and the rest is `ShipAndConfirm`. */
  lemma ChargedStage(env: Collaborators, orderId: string, req: CheckoutRequest)
    returns (prep: Step<OrderPrep>, total: Money)
    requires var r := PlaceOrder(env, orderId, req);
             r.result.Success? || r.result.error == ShippingFailed || r.result.error == CartNotEmptied
    ensures prep == PrepareOrder(env, req.userId, req.userCurrency, req.address)
    ensures prep.result.Success? && OrderTotal(prep.result.value) == Success(total)
    ensures env.charge(total, req.creditCard).Some?
    ensures AllAnswered(env, prep.effects + [Charge(total, req.creditCard)])
    ensures NoConfirmationSent(prep.effects + [Charge(total, req.creditCard)])
    ensures OnlyPreparationCalls(prep.effects)
    ensures PlaceOrder(env, orderId, req)
            == ShipAndConfirm(env, orderId, req, prep.result.value, prep.effects + [Charge(total, req.creditCard)])
  {
    prep := PlaceOrderPrepared(env, orderId, req);
    assert prep.result.Success?;
    var p := prep.result.value;
    assert OrderTotal(p).Success?;
    total := OrderTotal(p).value;
    assert Settle(env, orderId, req, p, prep.effects) == ChargeAndShip(env, orderId, req, p, total, prep.effects);
    assert env.charge(total, req.creditCard).Some?;
    SettleCharged(env, orderId, req, p, prep.effects, total);
  }

  /** A charged checkout that got past shipping and emptying the cart
      ends in `Confirm`. */
  lemma ShippedStage(env: Collaborators, orderId: string, req: CheckoutRequest, p: OrderPrep, before: seq<Effect>)
    requires AllAnswered(env, before) && NoConfirmationSent(before)
    requires ShipAndConfirm(env, orderId, req, p, before).result.Success?
    ensures env.shipOrder(req.address, p.cartItems).Some?
    ensures ShipAndConfirm(env, orderId, req, p, before)
            == Confirm(env, orderId, req, p, env.shipOrder(req.address, p.cartItems).value,
                       before + [ShipOrder(req.address, p.cartItems), EmptyCart(req.userId)])
  {
    assert before + [ShipOrder(req.address, p.cartItems)] + [EmptyCart(req.userId)]
        == before + [ShipOrder(req.address, p.cartItems), EmptyCart(req.userId)];
  }

  /** The calls after a successful preparation, for the order `o` of
      `items` costing `amount`: the charge on the request's card, shipping
      of those lines, emptying the cart, the confirmation mail and, exactly
      when the mail failed, a warning. */
  predicate IsSettlementTrace(env: Collaborators, req: CheckoutRequest, items: seq<CartItem>,
                              o: OrderResult, amount: Money, es: seq<Effect>) {
    && 4 <= |es| <= 5
    && es[0] == Charge(amount, req.creditCard)
    && es[1] == ShipOrder(req.address, items)
    && es[2] == EmptyCart(req.userId)
    && es[3] == SendOrderConfirmation(req.email, o)
    && (|es| == 5 <==> !env.sendOrderConfirmation(req.email, o))
    && (|es| == 5 ==> es[4] == ConfirmationWarning(req.email))
  }

  /** The whole trace of a checkout that placed order `o` for the cart lines
      `items`: their preparation, then their settlement. */
  predicate IsPlacedOrderTrace(env: Collaborators, req: CheckoutRequest, items: seq<CartItem>,
                               o: OrderResult, es: seq<Effect>) {
    var n := |items|;
    && 2 * n + 3 < |es|
    && IsPreparationTrace(env, req.userId, req.userCurrency, req.address, items, es[..2 * n + 3])
    && es[2 * n + 3].Charge?
    && IsSettlementTrace(env, req, items, o, es[2 * n + 3].amount, es[2 * n + 3..])
  }

  /** The effects of a successful checkout: the preparation's, then the
      settlement's. */
  lemma PlacedOrderEffects(env: Collaborators, orderId: string, req: CheckoutRequest)
    returns (prep: Step<OrderPrep>, total: Money, post: seq<Effect>)
    requires PlaceOrder(env, orderId, req).result.Success?
    ensures prep == PrepareOrder(env, req.userId, req.userCurrency, req.address)
    ensures prep.result.Success? && OrderTotal(prep.result.value) == Success(total)
    ensures env.charge(total, req.creditCard).Some?
    ensures OnlyPreparationCalls(prep.effects)
    ensures var r := PlaceOrder(env, orderId, req);
            && r.effects == prep.effects + post
            && IsSettlementTrace(env, req, prep.result.value.cartItems, r.result.value, total, post)
  {
    prep, total := ChargedStage(env, orderId, req);
    var p := prep.result.value;
    var charged := prep.effects + [Charge(total, req.creditCard)];
    ShippedStage(env, orderId, req, p, charged);
    var trackingId := env.shipOrder(req.address, p.cartItems).value;
    assert charged + [ShipOrder(req.address, p.cartItems), EmptyCart(req.userId)]
        == prep.effects + [Charge(total, req.creditCard), ShipOrder(req.address, p.cartItems), EmptyCart(req.userId)];
    post := ConfirmSettles(env, orderId, req, p, trackingId, total, prep.effects);
  }

  /** Confirming after the charge, shipping and emptying the cart completes
      a settlement. */
  lemma ConfirmSettles(env: Collaborators, orderId: string, req: CheckoutRequest, p: OrderPrep,
                       trackingId: string, total: Money, pre: seq<Effect>) returns (post: seq<Effect>)
    ensures var c := Confirm(env, orderId, req, p, trackingId,
                             pre + [Charge(total, req.creditCard), ShipOrder(req.address, p.cartItems), EmptyCart(req.userId)]);
            && c.effects == pre + post
            && IsSettlementTrace(env, req, p.cartItems, c.result.value, total, post)
  {
    var calls := [Charge(total, req.creditCard), ShipOrder(req.address, p.cartItems), EmptyCart(req.userId)];
    var o := OrderResult(orderId, trackingId, p.shippingCostLocalized, req.address, p.orderItems);
    if env.sendOrderConfirmation(req.email, o) {
      post := calls + [SendOrderConfirmation(req.email, o)];
    } else {
      post := calls + [SendOrderConfirmation(req.email, o), ConfirmationWarning(req.email)];
    }
    assert pre + calls + [SendOrderConfirmation(req.email, o)] == pre + (calls + [SendOrderConfirmation(req.email, o)]);
    assert pre + calls + [SendOrderConfirmation(req.email, o), ConfirmationWarning(req.email)]
        == pre + (calls + [SendOrderConfirmation(req.email, o), ConfirmationWarning(req.email)]);
  }

  /** Splitting a placed order's trace back into its two parts. */
  lemma PlacedOrderTraceOfParts(env: Collaborators, req: CheckoutRequest, items: seq<CartItem>,
                                o: OrderResult, amount: Money, pre: seq<Effect>, post: seq<Effect>)
    requires IsPreparationTrace(env, req.userId, req.userCurrency, req.address, items, pre)
    requires IsSettlementTrace(env, req, items, o, amount, post)
    ensures IsPlacedOrderTrace(env, req, items, o, pre + post)
  {
    var es := pre + post;
    assert es[..|pre|] == pre;
    assert es[|pre|..] == post;
  }

  /** In a preparation followed by a settlement, the settlement's charge is
      the only charge. */
  lemma OnlyChargeOfParts(env: Collaborators, req: CheckoutRequest, items: seq<CartItem>,
                          o: OrderResult, amount: Money, pre: seq<Effect>, post: seq<Effect>)
    requires OnlyPreparationCalls(pre)
    requires IsSettlementTrace(env, req, items, o, amount, post)
    ensures (pre + post)[|pre|] == Charge(amount, req.creditCard)
    ensures forall i :: 0 <= i < |pre + post| && (pre + post)[i].Charge? ==> i == |pre|
  {
    var es := pre + post;
    forall i | 0 <= i < |es| && es[i].Charge?
      ensures i == |pre|
    {
      if i >= |pre| {
        assert es[i] == post[i - |pre|];
      }
    }
  }

  /** A placed order is made of the collaborators' answers: the fetched
      cart's lines priced by the catalog and converted, the converted quote
      for exactly those lines, the tracking id of shipping exactly those
      lines; and the cart was emptied. */
  lemma PlacedOrderMatchesCollaborators(env: Collaborators, orderId: string, req: CheckoutRequest)
    requires PlaceOrder(env, orderId, req).result.Success?
    ensures env.getCart(req.userId).Some?
    ensures var o := PlaceOrder(env, orderId, req).result.value;
            var items := env.getCart(req.userId).value.items;
            && o.orderId == orderId
            && o.shippingAddress == req.address
            && |o.items| == |items|
            && (forall i :: 0 <= i < |items| ==> PricedAs(env, items[i], req.userCurrency, o.items[i]))
            && env.getQuote(req.address, items).Some?
            && env.convert(env.getQuote(req.address, items).value, req.userCurrency) == Some(o.shippingCost)
            && env.shipOrder(req.address, items) == Some(o.shippingTrackingId)
            && env.emptyCart(req.userId)
  {
    var prep, total := ChargedStage(env, orderId, req);
  }

  /** The calls of a successful checkout, in order: the cart, product and
      conversion per line, the quote for the fetched lines and its
      conversion, one charge on the request's card, shipping of the fetched
      lines, emptying the cart, the confirmation mail of the order returned,
      and a warning exactly when the mail failed. */
  lemma PlacedOrderTrace(env: Collaborators, orderId: string, req: CheckoutRequest)
    requires PlaceOrder(env, orderId, req).result.Success?
    ensures env.getCart(req.userId).Some?
    ensures var r := PlaceOrder(env, orderId, req);
            IsPlacedOrderTrace(env, req, env.getCart(req.userId).value.items, r.result.value, r.effects)
  {
    var r := PlaceOrder(env, orderId, req);
    var prep, total, post := PlacedOrderEffects(env, orderId, req);
    PrepareOrderCalls(env, req.userId, req.userCurrency, req.address);
    PlacedOrderTraceOfParts(env, req, prep.result.value.cartItems, r.result.value, total, prep.effects, post);
  }

  /** A successful checkout charges the card exactly once, with the order's
      total. */
  lemma ChargedOnceWithTotal(env: Collaborators, orderId: string, req: CheckoutRequest)
    requires PlaceOrder(env, orderId, req).result.Success?
    ensures var r := PlaceOrder(env, orderId, req);
            exists k :: && 0 <= k < |r.effects|
                        && r.effects[k].Charge?
                        && r.effects[k].creditCard == req.creditCard
                        && IsOrderTotal(r.effects[k].amount, r.result.value)
                        && env.charge(r.effects[k].amount, req.creditCard).Some?
                        && forall i :: 0 <= i < |r.effects| && r.effects[i].Charge? ==> i == k
  {
    var r := PlaceOrder(env, orderId, req);
    var prep, total, post := PlacedOrderEffects(env, orderId, req);
    OnlyChargeOfParts(env, req, prep.result.value.cartItems, r.result.value, total, prep.effects, post);
    var k := |prep.effects|;
    assert r.effects[k] == Charge(total, req.creditCard);
  }

  /** An abort before the charge moves no money: only lookups, conversions
      and the quote were issued. They are the calls of the failed
      preparation, starting with the cart fetch and following the fetched
      lines in order; a panicking total comes after the whole preparation
      trace of the fetched cart. */
  lemma EarlyAbortChargesNothing(env: Collaborators, orderId: string, req: CheckoutRequest)
    requires PlaceOrder(env, orderId, req).result.Failure?
    requires PlaceOrder(env, orderId, req).result.error !in {PaymentFailed, ShippingFailed, CartNotEmptied}
    ensures var es := PlaceOrder(env, orderId, req).effects;
            forall i :: 0 <= i < |es| ==> IsPreparationCall(es[i])
    ensures var r := PlaceOrder(env, orderId, req);
            IsPreparationAbort(r.result.error) ==>
              PreparationFailureTrace(env, req.userId, req.userCurrency, req.address, r.effects)
    ensures var r := PlaceOrder(env, orderId, req);
            r.result.error.TotalPanicked? ==>
              && env.getCart(req.userId).Some?
              && IsPreparationTrace(env, req.userId, req.userCurrency, req.address,
                                    env.getCart(req.userId).value.items, r.effects)
  {
    var prep := PlaceOrderPrepared(env, orderId, req);
    var es := PlaceOrder(env, orderId, req).effects;
    assert es == prep.effects && OnlyPreparationCalls(prep.effects);
    if prep.result.Failure? {
      PrepareOrderFailureCalls(env, req.userId, req.userCurrency, req.address);
    } else {
      PrepareOrderCalls(env, req.userId, req.userCurrency, req.address);
    }
  }

  /** `es` starts with the whole preparation trace `prep` issued for the
      fetched cart's lines, in order, followed by the charge of the order
      total: shipping plus every line's `quantity * cost`. */
  predicate ChargedAfterPreparation(env: Collaborators, req: CheckoutRequest, prep: Step<OrderPrep>, es: seq<Effect>) {
    && prep.result.Success?
    && OrderTotal(prep.result.value).Success?
    && IsPreparationTrace(env, req.userId, req.userCurrency, req.address, prep.result.value.cartItems, prep.effects)
    && |prep.effects| < |es|
    && es[..|prep.effects|] == prep.effects
    && es[|prep.effects|] == Charge(OrderTotal(prep.result.value).value, req.creditCard)
  }

  /** Reading `ChargedAfterPreparation` off a trace that continues the
      preparation with the charge. */
  lemma ChargedAfterPreparationOfParts(env: Collaborators, req: CheckoutRequest, prep: Step<OrderPrep>,
                                       total: Money, rest: seq<Effect>, es: seq<Effect>)
    requires prep.result.Success? && OrderTotal(prep.result.value) == Success(total)
    requires IsPreparationTrace(env, req.userId, req.userCurrency, req.address, prep.result.value.cartItems, prep.effects)
    requires es == prep.effects + [Charge(total, req.creditCard)] + rest
    ensures ChargedAfterPreparation(env, req, prep, es)
  {
    assert es[..|prep.effects|] == prep.effects;
  }

  /** A checkout whose charge was declined: the preparation and the total
      succeeded, and the charge was the last call. */
  lemma DeclinedStage(env: Collaborators, orderId: string, req: CheckoutRequest) returns (prep: Step<OrderPrep>, total: Money)
    requires PlaceOrder(env, orderId, req).result == Failure(PaymentFailed)
    ensures prep == PrepareOrder(env, req.userId, req.userCurrency, req.address)
    ensures prep.result.Success? && OrderTotal(prep.result.value) == Success(total)
    ensures env.charge(total, req.creditCard).None?
    ensures OnlyPreparationCalls(prep.effects)
    ensures PlaceOrder(env, orderId, req).effects == prep.effects + [Charge(total, req.creditCard)]
  {
    prep := PlaceOrderPrepared(env, orderId, req);
    total := OrderTotal(prep.result.value).value;
  }

  /** Reading the declined-payment shape off the preparation calls and the
      charge that follows them. */
  lemma DeclinedOfParts(env: Collaborators, req: CheckoutRequest, prepared: seq<Effect>, total: Money, es: seq<Effect>)
    requires OnlyPreparationCalls(prepared)
    requires env.charge(total, req.creditCard).None?
    requires es == prepared + [Charge(total, req.creditCard)]
    ensures && |es| > 0
            && es[|es| - 1].Charge?
            && !Answered(env, es[|es| - 1])
            && forall i :: 0 <= i < |es| - 1 ==> IsPreparationCall(es[i])
  {
    assert forall i :: 0 <= i < |es| - 1 ==> es[i] == prepared[i];
  }

  /** A declined payment ends the saga at the charge of the order total,
      issued after the whole preparation: nothing is shipped and the cart is
      kept. */
  lemma DeclinedPaymentShipsNothing(env: Collaborators, orderId: string, req: CheckoutRequest)
    requires PlaceOrder(env, orderId, req).result == Failure(PaymentFailed)
    ensures var es := PlaceOrder(env, orderId, req).effects;
            && |es| > 0
            && es[|es| - 1].Charge?
            && !Answered(env, es[|es| - 1])
            && forall i :: 0 <= i < |es| - 1 ==> IsPreparationCall(es[i])
    ensures ChargedAfterPreparation(env, req, PrepareOrder(env, req.userId, req.userCurrency, req.address),
                                    PlaceOrder(env, orderId, req).effects)
  {
    var prep, total := DeclinedStage(env, orderId, req);
    var es := PlaceOrder(env, orderId, req).effects;
    DeclinedOfParts(env, req, prep.effects, total, es);
    PrepareOrderCalls(env, req.userId, req.userCurrency, req.address);
    ChargedAfterPreparationOfParts(env, req, prep, total, [], es);
  }

  /** How `ShipAndConfirm` fails: at shipping, or at emptying the cart
      after shipping went through. */
  lemma ShipAndConfirmFailure(env: Collaborators, orderId: string, req: CheckoutRequest,
                              p: OrderPrep, before: seq<Effect>)
    requires AllAnswered(env, before) && NoConfirmationSent(before)
    requires ShipAndConfirm(env, orderId, req, p, before).result.Failure?
    ensures var r := ShipAndConfirm(env, orderId, req, p, before);
            && (r.result.error == ShippingFailed ==> r.effects == before + [ShipOrder(req.address, p.cartItems)])
            && (r.result.error == CartNotEmptied ==>
                  && env.shipOrder(req.address, p.cartItems).Some?
                  && r.effects == before + [ShipOrder(req.address, p.cartItems), EmptyCart(req.userId)])
  {
    assert before + [ShipOrder(req.address, p.cartItems)] + [EmptyCart(req.userId)]
        == before + [ShipOrder(req.address, p.cartItems), EmptyCart(req.userId)];
  }

  /** The calls of a saga that failed with `error` after the charge: only
      preparation calls came before the charge, the charge went through,
      and so did shipping when emptying the cart is what failed. A failed
      shipment is the last call, so the cart was not emptied. */
  predicate FailedAfterCharge(env: Collaborators, req: CheckoutRequest, error: Abort, es: seq<Effect>) {
    && |es| >= 2
    && (error == ShippingFailed ==>
          && OnlyPreparationCalls(es[..|es| - 2])
          && es[|es| - 2].Charge? && Answered(env, es[|es| - 2]) && es[|es| - 1].ShipOrder?)
    && (error == CartNotEmptied ==>
          && |es| >= 3
          && OnlyPreparationCalls(es[..|es| - 3])
          && es[|es| - 3].Charge? && Answered(env, es[|es| - 3])
          && es[|es| - 2].ShipOrder? && Answered(env, es[|es| - 2])
          && es[|es| - 1] == EmptyCart(req.userId))
  }

  /** Reading `FailedAfterCharge` off the calls issued after the charge. */
  lemma FailedAfterChargeOfParts(env: Collaborators, req: CheckoutRequest, items: seq<CartItem>,
                                 total: Money, prepared: seq<Effect>, error: Abort, es: seq<Effect>)
    requires OnlyPreparationCalls(prepared)
    requires env.charge(total, req.creditCard).Some?
    requires error == ShippingFailed ==>
               es == prepared + [Charge(total, req.creditCard)] + [ShipOrder(req.address, items)]
    requires error == CartNotEmptied ==>
               && env.shipOrder(req.address, items).Some?
               && es == prepared + [Charge(total, req.creditCard)] + [ShipOrder(req.address, items), EmptyCart(req.userId)]
    requires error == ShippingFailed || error == CartNotEmptied
    ensures FailedAfterCharge(env, req, error, es)
  {
    if error == ShippingFailed {
      assert es[..|es| - 2] == prepared;
    } else {
      assert es[..|es| - 3] == prepared;
    }
  }

  /** Failures after the charge are not compensated: the charge went
      through and stays, and a failed shipment leaves the cart untouched. */
  lemma LateAbortKeepsCharge(env: Collaborators, orderId: string, req: CheckoutRequest)
    requires PlaceOrder(env, orderId, req).result.Failure?
    requires PlaceOrder(env, orderId, req).result.error in {ShippingFailed, CartNotEmptied}
    ensures var r := PlaceOrder(env, orderId, req);
            FailedAfterCharge(env, req, r.result.error, r.effects)
    ensures ChargedAfterPreparation(env, req, PrepareOrder(env, req.userId, req.userCurrency, req.address),
                                    PlaceOrder(env, orderId, req).effects)
  {
    var prep, total := ChargedStage(env, orderId, req);
    var charged := prep.effects + [Charge(total, req.creditCard)];
    var p := prep.result.value;
    ShipAndConfirmFailure(env, orderId, req, p, charged);
    var r := PlaceOrder(env, orderId, req);
    FailedAfterChargeOfParts(env, req, p.cartItems, total, prep.effects, r.result.error, r.effects);
    PrepareOrderCalls(env, req.userId, req.userCurrency, req.address);
    var rest := if r.result.error == ShippingFailed then [ShipOrder(req.address, p.cartItems)]
                else [ShipOrder(req.address, p.cartItems), EmptyCart(req.userId)];
    ChargedAfterPreparationOfParts(env, req, prep, total, rest, r.effects);
  }

  /** Preparation reads only the cart, catalog, currency and shipping
      answers. */
  lemma {:induction false} PrepOrderItemsDependsOnLookups(env: Collaborators, env': Collaborators,
                                                          items: seq<CartItem>, currency: string)
    requires env'.getProduct == env.getProduct && env'.convert == env.convert
    ensures PrepOrderItems(env', items, currency) == PrepOrderItems(env, items, currency)
    decreases |items|
  {
    if |items| > 0 {
      PrepOrderItemsDependsOnLookups(env, env', items[1..], currency);
    }
  }

  /** Two runs with the same result whose calls differ at most by a
      trailing warning about the confirmation mail. */
  predicate SameUpToWarning(a: Step<OrderResult>, b: Step<OrderResult>, email: string) {
    && a.result == b.result
    && (|| a.effects == b.effects
        || a.effects == b.effects + [ConfirmationWarning(email)]
        || b.effects == a.effects + [ConfirmationWarning(email)])
  }

  /** Calls that send no mail are answered alike whatever the mail service
      does. */
  lemma AnsweredIgnoresSend(env: Collaborators, send: (string, OrderResult) -> bool, es: seq<Effect>)
    requires NoConfirmationSent(es) && AllAnswered(env, es)
    ensures AllAnswered(env.(sendOrderConfirmation := send), es)
  {
    var env' := env.(sendOrderConfirmation := send);
    forall i | 0 <= i < |es|
      ensures Answered(env', es[i])
    {
      assert Answered(env, es[i]);
    }
  }

  /** After the charge, the mail service only decides the warning. */
  lemma ShipAndConfirmIgnoresSend(env: Collaborators, send: (string, OrderResult) -> bool,
                                  orderId: string, req: CheckoutRequest, p: OrderPrep, before: seq<Effect>)
    requires AllAnswered(env, before) && NoConfirmationSent(before)
    ensures AllAnswered(env.(sendOrderConfirmation := send), before)
    ensures SameUpToWarning(ShipAndConfirm(env.(sendOrderConfirmation := send), orderId, req, p, before),
                            ShipAndConfirm(env, orderId, req, p, before), req.email)
  {
    AnsweredIgnoresSend(env, send, before);
    var env' := env.(sendOrderConfirmation := send);
    if env.shipOrder(req.address, p.cartItems).Some? && env.emptyCart(req.userId) {
      ShipAndConfirmPastShipping(env, orderId, req, p, before);
      ShipAndConfirmPastShipping(env', orderId, req, p, before);
    }
  }

  /** From the total on, the mail service only decides the warning. */
  lemma SettleIgnoresSend(env: Collaborators, send: (string, OrderResult) -> bool,
                          orderId: string, req: CheckoutRequest, p: OrderPrep, before: seq<Effect>)
    requires AllAnswered(env, before) && OnlyPreparationCalls(before)
    ensures AllAnswered(env.(sendOrderConfirmation := send), before)
    ensures SameUpToWarning(Settle(env.(sendOrderConfirmation := send), orderId, req, p, before),
                            Settle(env, orderId, req, p, before), req.email)
  {
    PreparationSendsNothing(before);
    AnsweredIgnoresSend(env, send, before);
    var env' := env.(sendOrderConfirmation := send);
    if OrderTotal(p).Success? && env.charge(OrderTotal(p).value, req.creditCard).Some? {
      var total := OrderTotal(p).value;
      SettleCharged(env, orderId, req, p, before, total);
      SettleCharged(env', orderId, req, p, before, total);
      ShipAndConfirmIgnoresSend(env, send, orderId, req, p, before + [Charge(total, req.creditCard)]);
    }
  }

  /** A failed confirmation mail changes nothing but the warning: the
      result, and every call, are those of a checkout whose mail went
      through. */
  lemma ConfirmationFailureIgnored(env: Collaborators, send: (string, OrderResult) -> bool,
                                   orderId: string, req: CheckoutRequest)
    ensures var env' := env.(sendOrderConfirmation := send);
            var r := PlaceOrder(env, orderId, req);
            var r' := PlaceOrder(env', orderId, req);
            && r'.result == r.result
            && (|| r'.effects == r.effects
                || r'.effects == r.effects + [ConfirmationWarning(req.email)]
                || r.effects == r'.effects + [ConfirmationWarning(req.email)])
  {
    var env' := env.(sendOrderConfirmation := send);
    if env.getCart(req.userId).Some? {
      PrepOrderItemsDependsOnLookups(env, env', env.getCart(req.userId).value.items, req.userCurrency);
    }
    var prep := PlaceOrderPrepared(env, orderId, req);
    var prep' := PlaceOrderPrepared(env', orderId, req);
    assert prep' == prep;
    if prep.result.Success? {
      SettleIgnoresSend(env, send, orderId, req, prep.result.value, prep.effects);
    }
  }

  /** An empty cart checked out in any currency but US dollars panics
      computing the total, before any charge: the empty sum is zero US
      dollars and adding it to shipping in another currency is a currency
      mismatch. */
  lemma EmptyCartOutsideUsdPanics(env: Collaborators, orderId: string, req: CheckoutRequest)
    requires ConvertHonoursTarget(env)
    requires env.getCart(req.userId).Some? && env.getCart(req.userId).value.items == []
    requires env.getQuote(req.address, []).Some?
    requires env.convert(env.getQuote(req.address, []).value, req.userCurrency).Some?
    requires req.userCurrency != "USD"
    ensures PlaceOrder(env, orderId, req).result == Failure(TotalPanicked(CurrencyMismatch(req.userCurrency, "USD")))
    ensures var es := PlaceOrder(env, orderId, req).effects;
            forall i :: 0 <= i < |es| ==> !es[i].Charge?
  {
    var prep := PrepareOrder(env, req.userId, req.userCurrency, req.address);
    assert prep.result.Success?;
    EmptyOrderTotal(prep.result.value);
    EarlyAbortChargesNothing(env, orderId, req);
  }

  /** With a currency service that answers in the requested currency, every
      price of a non-empty order is in the customer's currency, so the total
      can only fail by overflowing. */
  lemma HonestConversionNeverMismatches(env: Collaborators, orderId: string, req: CheckoutRequest)
    requires ConvertHonoursTarget(env)
    requires env.getCart(req.userId).Some? && |env.getCart(req.userId).value.items| > 0
    ensures var r := PlaceOrder(env, orderId, req);
            r.result.Failure? && r.result.error.TotalPanicked? ==> r.result.error.error == Overflow
  {
    var prep := PrepareOrder(env, req.userId, req.userCurrency, req.address);
    if prep.result.Success? {
      var p := prep.result.value;
      assert p.shippingCostLocalized.currencyCode == req.userCurrency;
      assert PricedIn(p.orderItems, req.userCurrency) by {
        forall i | 0 <= i < |p.orderItems|
          ensures p.orderItems[i].cost.currencyCode == req.userCurrency
        {
          assert PricedAs(env, p.cartItems[i], req.userCurrency, p.orderItems[i]);
        }
      }
    }
  }

  /** One line of two items at 10 US dollars with a 3.50 quote, all in US
      dollars: the order carries the line and the quote, and the card is
      charged 23.50. */
  lemma TwoItemOrderChargesTwentyThreeFifty(env: Collaborators, req: CheckoutRequest, product: Product)
    requires req.userCurrency == "USD"
    requires env.getCart(req.userId) == Some(CartStore.Cart(req.userId, [CartItem("P1", 2)]))
    requires env.getProduct("P1") == Some(product) && product.priceUsd == Money("USD", 10, 0)
    requires env.convert(Money("USD", 10, 0), "USD") == Some(Money("USD", 10, 0))
    requires env.getQuote(req.address, [CartItem("P1", 2)]) == Some(Money("USD", 3, 500_000_000))
    requires env.convert(Money("USD", 3, 500_000_000), "USD") == Some(Money("USD", 3, 500_000_000))
    requires env.charge(Money("USD", 23, 500_000_000), req.creditCard).Some?
    requires env.shipOrder(req.address, [CartItem("P1", 2)]).Some?
    requires env.emptyCart(req.userId)
    ensures var r := PlaceOrder(env, "order-1", req);
            && r.result == Success(OrderResult("order-1", env.shipOrder(req.address, [CartItem("P1", 2)]).value,
                                               Money("USD", 3, 500_000_000), req.address,
                                               [OrderItem(CartItem("P1", 2), Money("USD", 10, 0))]))
            && |r.effects| > 5
            && r.effects[5] == Charge(Money("USD", 23, 500_000_000), req.creditCard)
  {
    var prep := SamplePreparation(env, req, product);
    SampleTotal();
    PlacedAfterCharge(env, "order-1", req, prep, Money("USD", 23, 500_000_000));
  }

  /** A checkout whose preparation, total, charge, shipping and emptying of
      the cart all succeed places the order built from them, and its charge
      follows the preparation's calls. */
  lemma PlacedAfterCharge(env: Collaborators, orderId: string, req: CheckoutRequest,
                          prep: Step<OrderPrep>, total: Money)
    requires prep == PrepareOrder(env, req.userId, req.userCurrency, req.address)
    requires prep.result.Success? && OrderTotal(prep.result.value) == Success(total)
    requires env.charge(total, req.creditCard).Some?
    requires env.shipOrder(req.address, prep.result.value.cartItems).Some? && env.emptyCart(req.userId)
    ensures var r := PlaceOrder(env, orderId, req);
            var p := prep.result.value;
            && r.result == Success(OrderResult(orderId, env.shipOrder(req.address, p.cartItems).value,
                                               p.shippingCostLocalized, req.address, p.orderItems))
            && |r.effects| > |prep.effects|
            && r.effects[|prep.effects|] == Charge(total, req.creditCard)
  {
    var p := prep.result.value;
    var charged := prep.effects + [Charge(total, req.creditCard)];
    PlaceOrderPastCharge(env, orderId, req, prep, total);
    ShipAndConfirmPastShipping(env, orderId, req, p, charged);
    var emptied := charged + [ShipOrder(req.address, p.cartItems), EmptyCart(req.userId)];
    assert emptied[|prep.effects|] == Charge(total, req.creditCard);
  }

  /** Preparing the one-line order takes five calls. */
  lemma SamplePreparation(env: Collaborators, req: CheckoutRequest, product: Product) returns (prep: Step<OrderPrep>)
    requires req.userCurrency == "USD"
    requires env.getCart(req.userId) == Some(CartStore.Cart(req.userId, [CartItem("P1", 2)]))
    requires env.getProduct("P1") == Some(product) && product.priceUsd == Money("USD", 10, 0)
    requires env.convert(Money("USD", 10, 0), "USD") == Some(Money("USD", 10, 0))
    requires env.getQuote(req.address, [CartItem("P1", 2)]) == Some(Money("USD", 3, 500_000_000))
    requires env.convert(Money("USD", 3, 500_000_000), "USD") == Some(Money("USD", 3, 500_000_000))
    ensures prep == PrepareOrder(env, req.userId, req.userCurrency, req.address)
    ensures prep.result == Success(OrderPrep([OrderItem(CartItem("P1", 2), Money("USD", 10, 0))], [CartItem("P1", 2)],
                                             Money("USD", 3, 500_000_000)))
    ensures |prep.effects| == 5
  {
    var item := CartItem("P1", 2);
    var price := Money("USD", 10, 0);
    var line := OrderItem(item, price);
    assert [item][1..] == [];
    assert PrepOrderItems(env, [item][1..], "USD") == Step(Success([]), []);
    var calls := [GetProduct("P1"), Convert(price, "USD")];
    assert [line] + [] == [line] && calls + [] == calls;
    assert PrepOrderItems(env, [item], "USD") == Step(Success([line]), calls);
    prep := PrepareOrder(env, req.userId, req.userCurrency, req.address);
  }

  /** Two at 10.00 plus 3.50 shipping is 23.50. */
  lemma SampleTotal()
    ensures OrderTotal(OrderPrep([OrderItem(CartItem("P1", 2), Money("USD", 10, 0))], [CartItem("P1", 2)],
                                 Money("USD", 3, 500_000_000)))
            == Success(Money("USD", 23, 500_000_000))
  {
    SampleItemsTotal();
    assert Add(Money("USD", 3, 500_000_000), Money("USD", 20, 0)) == Success(Money("USD", 23, 500_000_000)) by {
      assert TDiv(500_000_000, NANOS_PER_UNIT) == 0;
    }
  }

  /** Two at 10.00 is 20.00. */
  lemma SampleItemsTotal()
    ensures ItemsTotal([OrderItem(CartItem("P1", 2), Money("USD", 10, 0))]) == Success(Money("USD", 20, 0))
  {
    assert Mul(2, Money("USD", 10, 0)) == Success(Money("USD", 20, 0)) by {
      assert TDiv(0, NANOS_PER_UNIT) == 0;
    }
  }
}
