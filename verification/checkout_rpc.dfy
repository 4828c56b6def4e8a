/** The message-based checkout service (`src/checkoutservice/mod.rs`): the
    same saga as `Checkout`, behind one handler taking a
    `CheckoutServiceRequest` and answering a `CheckoutServiceResponse` that
    wraps the order. The `Money` type it uses is modelled by the shared
    one. */
module CheckoutRpc {
  import opened Results
  import opened SharedTypes
  import opened Checkout
  import CheckoutProperties

  datatype CheckoutServiceRequest = CheckoutServiceRequest(
    userId: string,
    userCurrency: string,
    address: Address,
    email: string,
    creditCard: CreditCardInfo)

  datatype CheckoutServiceResponse = CheckoutServiceResponse(order: OrderResult)

  /** The request's fields as the saga reads them. */
  function AsCheckoutRequest(q: CheckoutServiceRequest): CheckoutRequest {
    CheckoutRequest(q.userId, q.userCurrency, q.address, q.email, q.creditCard)
  }

  /** `RpcHandler::handle`: run the saga with the generated `orderId` and
      wrap the order; every panic of the saga aborts the call. */
  function Handle(env: Collaborators, orderId: string, q: CheckoutServiceRequest): (r: Step<CheckoutServiceResponse>)
    ensures r.result.Failure? && !r.result.error.TotalPanicked? ==>
              StopsAtFirstFailure(env, r.effects) && Blames(r.result.error, r.effects)
    ensures r.result.Failure? && r.result.error.TotalPanicked? ==>
              AllAnswered(env, r.effects) && OnlyPreparationCalls(r.effects)
    ensures r.result.Failure? ==> NoConfirmationSent(r.effects)
    ensures r.result.Success? ==>
              && r.result.value.order.orderId == orderId
              && r.result.value.order.shippingAddress == q.address
  {
    var s := PlaceOrder(env, orderId, AsCheckoutRequest(q));
    match s.result
    case Success(order) => Step(Success(CheckoutServiceResponse(order)), s.effects)
    case Failure(e) => Step(Failure(e), s.effects)
  }

  /** A response's order is made of the collaborators' answers: the fetched
      cart's lines priced by the catalog in the requested currency, the
      converted quote for those lines and the tracking id of shipping them;
      the cart was emptied and the card charged once, with the order's
      total. */
  lemma HandledOrderMatchesCollaborators(env: Collaborators, orderId: string, q: CheckoutServiceRequest)
    requires Handle(env, orderId, q).result.Success?
    ensures env.getCart(q.userId).Some?
    ensures var r := Handle(env, orderId, q);
            var o := r.result.value.order;
            var items := env.getCart(q.userId).value.items;
            && |o.items| == |items|
            && (forall i :: 0 <= i < |items| ==> PricedAs(env, items[i], q.userCurrency, o.items[i]))
            && env.getQuote(q.address, items).Some?
            && env.convert(env.getQuote(q.address, items).value, q.userCurrency) == Some(o.shippingCost)
            && env.shipOrder(q.address, items) == Some(o.shippingTrackingId)
            && env.emptyCart(q.userId)
            && exists k :: && 0 <= k < |r.effects|
                           && r.effects[k].Charge?
                           && r.effects[k].creditCard == q.creditCard
                           && CheckoutProperties.IsOrderTotal(r.effects[k].amount, o)
                           && forall i :: 0 <= i < |r.effects| && r.effects[i].Charge? ==> i == k
  {
    var req := AsCheckoutRequest(q);
    CheckoutProperties.PlacedOrderMatchesCollaborators(env, orderId, req);
    CheckoutProperties.ChargedOnceWithTotal(env, orderId, req);
  }

  /** The calls a successful request issues are those of a placed order. */
  lemma HandledOrderTrace(env: Collaborators, orderId: string, q: CheckoutServiceRequest)
    requires Handle(env, orderId, q).result.Success?
    ensures env.getCart(q.userId).Some?
    ensures var r := Handle(env, orderId, q);
            CheckoutProperties.IsPlacedOrderTrace(env, AsCheckoutRequest(q), env.getCart(q.userId).value.items,
                                                  r.result.value.order, r.effects)
  {
    CheckoutProperties.PlacedOrderTrace(env, orderId, AsCheckoutRequest(q));
  }
}
