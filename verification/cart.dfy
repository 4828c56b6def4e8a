/** The cart service (`src/backend/cart.rs`): per user, a versioned map from
    product id to quantity. The replicated store behind it is modelled as a
    plain map from user id to that user's record; each call's storage read
    and write either succeed or fail, as given by a `StorageIo` value. */
module CartStore {
  import opened FixedWidth
  import opened Results
  import opened SharedTypes

  /** The answer of `get_cart`. */
  datatype Cart = Cart(userId: string, items: seq<CartItem>)

  /** `CartData`: the version counter and the product quantities. */
  datatype CartData = CartData(version: uint32, items: map<string, uint32>)

  datatype CartError =
    | StorageUnavailable
    | QuantityOverflow
    | VersionOverflow

  type Store = map<string, CartData>

  /** Whether this call's storage read and storage write go through. */
  datatype StorageIo = StorageIo(readOk: bool, writeOk: bool)

  /** The result of a call together with the store after it. */
  datatype StoreStep<T> = StoreStep(result: Result<T, CartError>, store: Store)

  /** `CartData::default()`. */
  function DefaultCartData(): (d: CartData)
    ensures d.version == 0 && |d.items| == 0
  {
    CartData(0, map[])
  }

  /** `get_or_default`: a user without a stored cart has the default one. */
  function GetOrDefault(store: Store, userId: string): (d: CartData)
    ensures userId !in store ==> d == DefaultCartData()
    ensures userId in store ==> d == store[userId]
  {
    if userId in store then store[userId] else DefaultCartData()
  }

  /** The quantity a user's cart holds of a product, zero when absent. */
  function Quantity(store: Store, userId: string, productId: string): nat {
    var items := GetOrDefault(store, userId).items;
    if productId in items then items[productId] else 0
  }

  /** `CartData::to_cart`: one line per stored product, in the map's
      iteration order `keyOrder`. */
  function ToCart(data: CartData, userId: string, keyOrder: seq<string>): (c: Cart)
    requires Enumerates(keyOrder, data.items.Keys)
    ensures c.userId == userId
    ensures |c.items| == |data.items|
    ensures forall i :: 0 <= i < |c.items| ==>
              c.items[i].productId in data.items && c.items[i].quantity == data.items[c.items[i].productId]
    ensures forall i, j :: 0 <= i < j < |c.items| ==> c.items[i].productId != c.items[j].productId
    ensures forall k :: k in data.items ==> exists i :: 0 <= i < |c.items| && c.items[i] == CartItem(k, data.items[k])
  {
    var items := seq(|keyOrder|, i requires 0 <= i < |keyOrder| => CartItem(keyOrder[i], data.items[keyOrder[i]]));
    assert forall k :: k in data.items ==> exists i :: 0 <= i < |items| && items[i] == CartItem(k, data.items[k]) by {
      forall k | k in data.items
        ensures exists i :: 0 <= i < |items| && items[i] == CartItem(k, data.items[k])
      {
        assert k in keyOrder;
        var i :| 0 <= i < |keyOrder| && keyOrder[i] == k;
        assert items[i] == CartItem(k, data.items[k]);
      }
    }
    Cart(userId, items)
  }

  /** `add_item`: read the user's cart (or the default), raise the product's
      quantity by the item's quantity (`u32` addition, which panics on
      overflow), write it back. */
  function AddItem(store: Store, io: StorageIo, userId: string, item: CartItem): (r: StoreStep<()>)
    ensures r.result.Success? <==>
              io.readOk && io.writeOk && Quantity(store, userId, item.productId) + item.quantity <= UINT32_MAX
    ensures r.result.Failure? ==> r.store == store
    ensures r.result.Success? ==>
              && r.store.Keys == store.Keys + {userId}
              && r.store[userId].version == GetOrDefault(store, userId).version
              && r.store[userId].items.Keys == GetOrDefault(store, userId).items.Keys + {item.productId}
              && Quantity(r.store, userId, item.productId) == Quantity(store, userId, item.productId) + item.quantity
              && (forall p :: p != item.productId ==> Quantity(r.store, userId, p) == Quantity(store, userId, p))
              && (forall u :: u in store && u != userId ==> r.store[u] == store[u])
  {
    if !io.readOk then
      StoreStep(Failure(StorageUnavailable), store)
    else
      var cart := GetOrDefault(store, userId);
      var qty := Quantity(store, userId, item.productId) + item.quantity;
      if qty > UINT32_MAX then
        StoreStep(Failure(QuantityOverflow), store)
      else if !io.writeOk then
        StoreStep(Failure(StorageUnavailable), store)
      else
        StoreStep(Success(()), store[userId := CartData(cart.version, cart.items[item.productId := qty])])
  }

  /** `get_cart`: the stored (or default) cart projected to item lines. */
  function GetCart(store: Store, readOk: bool, userId: string, keyOrder: seq<string>): (r: Result<Cart, CartError>)
    requires Enumerates(keyOrder, GetOrDefault(store, userId).items.Keys)
    ensures r.Success? <==> readOk
    ensures r.Success? ==>
              && r.value.userId == userId
              && |r.value.items| == |GetOrDefault(store, userId).items|
              && (forall i :: 0 <= i < |r.value.items| ==>
                    && r.value.items[i].productId in GetOrDefault(store, userId).items
                    && r.value.items[i].quantity == Quantity(store, userId, r.value.items[i].productId))
              && (forall i, j :: 0 <= i < j < |r.value.items| ==>
                    r.value.items[i].productId != r.value.items[j].productId)
              && (forall p :: p in GetOrDefault(store, userId).items ==>
                    exists i :: 0 <= i < |r.value.items| && r.value.items[i].productId == p)
  {
    if readOk then Success(ToCart(GetOrDefault(store, userId), userId, keyOrder)) else Failure(StorageUnavailable)
  }

  /** `empty_cart`: bump the version (`u32` addition) and clear the items. */
  function EmptyCart(store: Store, io: StorageIo, userId: string): (r: StoreStep<()>)
    ensures r.result.Success? <==>
              io.readOk && io.writeOk && GetOrDefault(store, userId).version < UINT32_MAX
    ensures r.result.Failure? ==> r.store == store
    ensures r.result.Success? ==>
              && r.store.Keys == store.Keys + {userId}
              && r.store[userId].version == GetOrDefault(store, userId).version + 1
              && |r.store[userId].items| == 0
              && (forall u :: u in store && u != userId ==> r.store[u] == store[u])
  {
    if !io.readOk then
      StoreStep(Failure(StorageUnavailable), store)
    else
      var cart := GetOrDefault(store, userId);
      if cart.version + 1 > UINT32_MAX then
        StoreStep(Failure(VersionOverflow), store)
      else if !io.writeOk then
        StoreStep(Failure(StorageUnavailable), store)
      else
        StoreStep(Success(()), store[userId := CartData(cart.version + 1, map[])])
  }

  /** A user who never stored a cart gets one without items. */
  lemma MissingCartIsEmpty(store: Store, userId: string)
    requires userId !in store
    ensures GetCart(store, true, userId, []) == Success(Cart(userId, []))
  {
  }

  /** Two successful additions of the same product accumulate. */
  lemma AddItemAccumulates(store: Store, io: StorageIo, userId: string, productId: string, q1: uint32, q2: uint32)
    requires AddItem(store, io, userId, CartItem(productId, q1)).result.Success?
    requires AddItem(AddItem(store, io, userId, CartItem(productId, q1)).store, io, userId, CartItem(productId, q2)).result.Success?
    ensures var s2 := AddItem(AddItem(store, io, userId, CartItem(productId, q1)).store, io, userId, CartItem(productId, q2)).store;
            Quantity(s2, userId, productId) == Quantity(store, userId, productId) + q1 + q2
  {
  }

  /** After a successful `empty_cart`, `get_cart` reports no items. */
  lemma GetCartAfterEmpty(store: Store, io: StorageIo, userId: string)
    requires EmptyCart(store, io, userId).result.Success?
    ensures GetCart(EmptyCart(store, io, userId).store, true, userId, []) == Success(Cart(userId, []))
  {
  }
}
