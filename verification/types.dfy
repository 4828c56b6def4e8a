/** The records exchanged between the store's services
    (`src/shared/types.rs`). */
module SharedTypes {
  import opened FixedWidth
  import opened Monetary

  datatype Ad = Ad(redirectUrl: string, text: string)

  datatype Address = Address(
    streetAddress: string,
    city: string,
    state: string,
    country: string,
    zipCode: int32)

  datatype CartItem = CartItem(productId: string, quantity: uint32)

  datatype CreditCardInfo = CreditCardInfo(
    creditCardNumber: string,
    creditCardCcv: int32,
    creditCardExpirationYear: int32,
    creditCardExpirationMonth: int32)

  /** A cart line annotated with its unit cost in the customer's currency. */
  datatype OrderItem = OrderItem(item: CartItem, cost: Money)

  datatype OrderResult = OrderResult(
    orderId: string,
    shippingTrackingId: string,
    shippingCost: Money,
    shippingAddress: Address,
    items: seq<OrderItem>)

  datatype Product = Product(
    id: string,
    name: string,
    description: string,
    picture: string,
    priceUsd: Money,
    categories: seq<string>)

  /** `order` lists every key of `keys` exactly once: the unspecified
      iteration order of a hash map over those keys. */
  predicate Enumerates(order: seq<string>, keys: set<string>) {
    && |order| == |keys|
    && (forall i, j :: 0 <= i < j < |order| ==> order[i] != order[j])
    && (forall k :: k in keys ==> k in order)
    && (forall k :: k in order ==> k in keys)
  }
}
