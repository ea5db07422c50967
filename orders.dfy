/** The order handlers: order creation and status update with recomputation of the
    order total, deletion, and adding and removing order items. */
module Orders {
  import opened Common
  import opened Db

  /** What one order item adds to its order's total. */
  function LineTotal(item: OrderItem): real
  {
    item.quantity as real * item.priceAtTime
  }

  /** The sum of the line totals of every item in `m`. */
  ghost function SumLines(m: map<OrderItemId, OrderItem>): real
    decreases |m|
  {
    if m == map[] then 0.0
    else
      var k :| k in m;
      assert |m - {k}| < |m| by { assert (m - {k}).Keys == m.Keys - {k}; }
      LineTotal(m[k]) + SumLines(m - {k})
  }

  /** The sum does not depend on which item is taken first. */
  lemma {:induction false} SumLinesRemove(m: map<OrderItemId, OrderItem>, k: OrderItemId)
    requires k in m
    ensures SumLines(m) == LineTotal(m[k]) + SumLines(m - {k})
    decreases |m|
  {
    var j :| j in m && SumLines(m) == LineTotal(m[j]) + SumLines(m - {j});
    if j != k {
      assert (m - {j}).Keys == m.Keys - {j};
      assert (m - {k}).Keys == m.Keys - {k};
      SumLinesRemove(m - {j}, k);
      SumLinesRemove(m - {k}, j);
      assert m - {j} - {k} == m - {k} - {j};
    }
  }

  /** The items of `m` whose ids are in `s`. */
  function Restrict(m: map<OrderItemId, OrderItem>, s: set<OrderItemId>): map<OrderItemId, OrderItem>
  {
    map k | k in m && k in s :: m[k]
  }

  /** Taking an item inside `s` out of `m` takes it out of the part inside `s`. */
  lemma SplitStepInside(m: map<OrderItemId, OrderItem>, s: set<OrderItemId>, k: OrderItemId)
    requires k in m && k in s
    ensures SumLines(Restrict(m, s)) == LineTotal(m[k]) + SumLines(Restrict(m - {k}, s))
    ensures m - s == (m - {k}) - s
  {
    SumLinesRemove(Restrict(m, s), k);
    assert Restrict(m, s) - {k} == Restrict(m - {k}, s);
  }

  /** Taking an item outside `s` out of `m` takes it out of the part outside `s`. */
  lemma SplitStepOutside(m: map<OrderItemId, OrderItem>, s: set<OrderItemId>, k: OrderItemId)
    requires k in m && k !in s
    ensures SumLines(m - s) == LineTotal(m[k]) + SumLines((m - {k}) - s)
    ensures Restrict(m, s) == Restrict(m - {k}, s)
  {
    SumLinesRemove(m - s, k);
    assert (m - s) - {k} == (m - {k}) - s;
  }

  /** Summing a map is summing the part inside `s` plus the part outside it. */
  lemma {:induction false} SumLinesSplit(m: map<OrderItemId, OrderItem>, s: set<OrderItemId>)
    ensures SumLines(m) == SumLines(Restrict(m, s)) + SumLines(m - s)
    decreases |m|
  {
    if m != map[] {
      var k :| k in m;
      assert |m - {k}| < |m| by { assert (m - {k}).Keys == m.Keys - {k}; }
      SumLinesSplit(m - {k}, s);
      SumLinesRemove(m, k);
      if k in s {
        SplitStepInside(m, s, k);
      } else {
        SplitStepOutside(m, s, k);
      }
    }
  }

  /** The items of one order (`SELECT ... FROM order_items WHERE order_id = $1`). */
  function ItemsOf(items: map<OrderItemId, OrderItem>, orderId: OrderId): map<OrderItemId, OrderItem>
  {
    map k | k in items && items[k].orderId == orderId :: items[k]
  }

  /** The items of `items` that pair `orderId` with `productId`. */
  function PairItems(items: map<OrderItemId, OrderItem>, orderId: OrderId, productId: ProductId)
    : map<OrderItemId, OrderItem>
  {
    map k | k in items && items[k].orderId == orderId && items[k].productId == productId :: items[k]
  }

  /** The total that matches an order's items: the sum of quantity times price at the time
      over its items, 0 when it has none. */
  ghost function OrderTotal(items: map<OrderItemId, OrderItem>, orderId: OrderId): (total: real)
    ensures (forall k :: k in items && items[k].orderId == orderId ==>
               items[k].quantity >= 0 && items[k].priceAtTime >= 0.0) ==> total >= 0.0
  {
    var mine := ItemsOf(items, orderId);
    if forall k :: k in mine ==> mine[k].quantity >= 0 && mine[k].priceAtTime >= 0.0 then
      SumLinesNonNegative(mine);
      SumLines(mine)
    else
      SumLines(mine)
  }

  /** Items with non-negative quantities and prices sum to a non-negative total. */
  lemma {:induction false} SumLinesNonNegative(m: map<OrderItemId, OrderItem>)
    requires forall k :: k in m ==> m[k].quantity >= 0 && m[k].priceAtTime >= 0.0
    ensures SumLines(m) >= 0.0
    decreases |m|
  {
    if m != map[] {
      var k :| k in m;
      assert |m - {k}| < |m| by { assert (m - {k}).Keys == m.Keys - {k}; }
      SumLinesNonNegative(m - {k});
      SumLinesRemove(m, k);
      assert LineTotal(m[k]) >= 0.0 by {
        assert m[k].quantity as real >= 0.0;
      }
    }
  }

  /** An order without items totals 0. */
  lemma OrderTotalOfNoItems(items: map<OrderItemId, OrderItem>, orderId: OrderId)
    requires forall k :: k in items ==> items[k].orderId != orderId
    ensures OrderTotal(items, orderId) == 0.0
  {
    assert ItemsOf(items, orderId) == map[];
  }

  /** Inserting a fresh item adds its line total to its own order's total and leaves
      every other order's total unchanged. */
  lemma {:induction false} OrderTotalInsert(
    items: map<OrderItemId, OrderItem>, k: OrderItemId, item: OrderItem, orderId: OrderId)
    requires k !in items
    ensures OrderTotal(items[k := item], orderId)
         == OrderTotal(items, orderId) + (if item.orderId == orderId then LineTotal(item) else 0.0)
  {
    var after := ItemsOf(items[k := item], orderId);
    if item.orderId == orderId {
      SumLinesRemove(after, k);
      assert after - {k} == ItemsOf(items, orderId);
    } else {
      assert after == ItemsOf(items, orderId);
    }
  }

  /** Deleting the items that pair `orderId` with `productId` lowers that order's
      total by exactly their line totals. */
  lemma {:induction false} OrderTotalRemovePair(
    items: map<OrderItemId, OrderItem>, orderId: OrderId, productId: ProductId)
    ensures OrderTotal(items - PairItems(items, orderId, productId).Keys, orderId)
         == OrderTotal(items, orderId) - SumLines(PairItems(items, orderId, productId))
  {
    var mine := ItemsOf(items, orderId);
    var pair := PairItems(items, orderId, productId);
    SumLinesSplit(mine, pair.Keys);
    assert Restrict(mine, pair.Keys) == pair;
    assert mine - pair.Keys == ItemsOf(items - pair.Keys, orderId);
  }

  /** An order with two items, two units at 10.00 and one unit at 5.00, totals 25.00;
      after its second product is removed it totals 20.00. */
  lemma TwoItemTotalExample()
    ensures var items := map[1 := OrderItem(7, 10, 2, 10.0), 2 := OrderItem(7, 20, 1, 5.0)];
      && OrderTotal(items, 7) == 25.0
      && OrderTotal(items - PairItems(items, 7, 20).Keys, 7) == 20.0
  {
    var a, b := OrderItem(7, 10, 2, 10.0), OrderItem(7, 20, 1, 5.0);
    var items := map[1 := a, 2 := b];
    assert ItemsOf(items, 7) == items;
    SumLinesRemove(items, 1);
    assert items - {1} == map[2 := b];
    SumLinesRemove(map[2 := b], 2);
    assert map[2 := b] - {2} == map[];
    var left := items - PairItems(items, 7, 20).Keys;
    assert left == map[1 := a];
    assert ItemsOf(left, 7) == left;
    SumLinesRemove(left, 1);
    assert left - {1} == map[];
  }

  /** The `reduce` of updateOrder: folds `sum + quantity * price_at_time` over the
      order's items, starting from 0. */
  method ComputeTotal(items: map<OrderItemId, OrderItem>, orderId: OrderId) returns (total: real)
    ensures total == OrderTotal(items, orderId)
  {
    total := 0.0;
    var rest := ItemsOf(items, orderId);
    while rest != map[]
      invariant total + SumLines(rest) == OrderTotal(items, orderId)
      decreases |rest|
    {
      var k :| k in rest;
      SumLinesRemove(rest, k);
      total := total + LineTotal(rest[k]);
      assert (rest - {k}).Keys == rest.Keys - {k};
      rest := rest - {k};
    }
  }

  /** Whether `status` is one of the `OrderStatus` values; an absent status is not,
      and neither is the "payment_failed" the reconciler writes. */
  predicate IsOrderStatus(status: Option<string>): (b: bool)
    ensures b <==> status in {Some("pending"), Some("processing"), Some("paid"), Some("shipped"),
                              Some("delivered"), Some("cancelled"), Some("refunded")}
    ensures status == Some("payment_failed") ==> !b
  {
    status.Some? && status.value in OrderStatuses
  }

  /** `getOrders`: the caller's orders. */
  function GetOrders(db: Store, caller: Option<UserId>): (r: Result<map<OrderId, Order>>)
    reads db
    ensures caller.None? <==> r == Err(Unauthorized)
    ensures r.Ok? ==> r.value.Keys <= db.orders.Keys
    ensures r.Ok? ==> forall id :: id in db.orders ==>
      (id in r.value <==> OwnsOrder(db.orders, id, caller.value))
    ensures r.Ok? ==> forall id :: id in r.value ==> r.value[id] == db.orders[id]
  {
    if caller.None? then Err(Unauthorized)
    else Ok(map id | id in db.orders && db.orders[id].userId == caller.value :: db.orders[id])
  }

  /** `createOrder`: checks the caller, the status, the caller's user row and the
      shipping address, then inserts one order with the body's values. The address
      need not belong to the caller. */
  method CreateOrder(db: Store, caller: Option<UserId>, status: Option<string>, totalAmount: real,
                     shippingAddressId: AddressId)
    returns (code: Code)
    requires db.Valid()
    modifies db`orders, db`nextId
    ensures db.Valid()
    ensures code == (
      if caller.None? then Unauthorized
      else if !IsOrderStatus(status) then BadRequest(InvalidStatus)
      else if caller.value !in db.users then NotFound(NoUser)
      else if shippingAddressId !in db.addresses then NotFound(NoAddress)
      else Success)
    ensures code != Success ==> db.orders == old(db.orders) && db.nextId == old(db.nextId)
    ensures code == Success ==>
      && old(db.nextId) !in old(db.orders)
      && db.orders == old(db.orders)[old(db.nextId) := Order(caller.value, status.value, totalAmount, shippingAddressId)]
  {
    if caller.None? {
      return Unauthorized;
    }
    var userId := caller.value;
    if !IsOrderStatus(status) {
      return BadRequest(InvalidStatus);
    }
    if userId !in db.users {
      return NotFound(NoUser);
    }
    if shippingAddressId !in db.addresses {
      return NotFound(NoAddress);
    }
    var id := db.nextId;
    db.orders := db.orders[id := Order(userId, status.value, totalAmount, shippingAddressId)];
    db.nextId := db.nextId + 1;
    code := Success;
  }

  /** `updateOrder`: sets the status and recomputes the total from the order's items,
      on the order with that id owned by the caller. No such order makes `.single()`
      report an error, which the handler rethrows as 500. */
  method UpdateOrder(db: Store, caller: Option<UserId>, status: Option<string>, orderId: OrderId)
    returns (code: Code)
    requires db.Valid()
    modifies db`orders
    ensures db.Valid()
    ensures code == (
      if caller.None? then Unauthorized
      else if !IsOrderStatus(status) then BadRequest(InvalidStatus)
      else if !OwnsOrder(old(db.orders), orderId, caller.value) then ServerError
      else Success)
    ensures code != Success ==> db.orders == old(db.orders)
    ensures code == Success ==>
      db.orders == old(db.orders)[orderId := old(db.orders)[orderId].(
        status := status.value, totalAmount := OrderTotal(db.orderItems, orderId))]
  {
    if caller.None? {
      return Unauthorized;
    }
    var userId := caller.value;
    if !IsOrderStatus(status) {
      return BadRequest(InvalidStatus);
    }
    var total := ComputeTotal(db.orderItems, orderId);
    if !OwnsOrder(db.orders, orderId, userId) {
      return ServerError;
    }
    db.orders := db.orders[orderId := db.orders[orderId].(status := status.value, totalAmount := total)];
    code := Success;
  }

  /** `deleteOrder`: deletes the order with that id owned by the caller; no such
      order gives 500 as in `UpdateOrder`. */
  method DeleteOrder(db: Store, caller: Option<UserId>, orderId: OrderId) returns (code: Code)
    requires db.Valid()
    modifies db`orders
    ensures db.Valid()
    ensures code == (
      if caller.None? then Unauthorized
      else if !OwnsOrder(old(db.orders), orderId, caller.value) then ServerError
      else Success)
    ensures code != Success ==> db.orders == old(db.orders)
    ensures code == Success ==> db.orders == old(db.orders) - {orderId}
  {
    if caller.None? {
      return Unauthorized;
    }
    if !OwnsOrder(db.orders, orderId, caller.value) {
      return ServerError;
    }
    db.orders := db.orders - {orderId};
    code := Success;
  }

  /** The validation of `addItemsToOrder`, in its order: a non-positive quantity
      first, then any missing or zero product id, quantity or price. The order id is
      a route parameter and always present. */
  function AddItemProblem(productId: Option<ProductId>, quantity: Option<int>, priceAtTime: Option<real>)
    : (r: Option<Problem>)
    ensures r.None? <==> Truthy(productId, 0) && quantity.Some? && quantity.value > 0 && Truthy(priceAtTime, 0.0)
    ensures r == Some(InvalidQuantity) <==> quantity.Some? && quantity.value <= 0
    ensures r.Some? && r != Some(InvalidQuantity) ==> r == Some(MissingData)
  {
    if quantity.Some? && quantity.value <= 0 then Some(InvalidQuantity)
    else if !Truthy(productId, 0) || !Truthy(quantity, 0) || !Truthy(priceAtTime, 0.0) then Some(MissingData)
    else None
  }

  /** `addItemsToOrder`: after validation, checks that the product and then the order
      exist and inserts exactly one item. It neither checks for an existing item with
      the same product nor updates the order's total. */
  method AddItemsToOrder(db: Store, orderId: OrderId, productId: Option<ProductId>, quantity: Option<int>,
                         priceAtTime: Option<real>)
    returns (code: Code)
    requires db.Valid()
    modifies db`orderItems, db`nextId
    ensures db.Valid()
    ensures code == (
      if AddItemProblem(productId, quantity, priceAtTime).Some? then BadRequest(AddItemProblem(productId, quantity, priceAtTime).value)
      else if productId.value !in db.products then NotFound(NoProduct)
      else if orderId !in db.orders then NotFound(NoOrder)
      else Created)
    ensures code != Created ==> db.orderItems == old(db.orderItems) && db.nextId == old(db.nextId)
    ensures code == Created ==>
      && old(db.nextId) !in old(db.orderItems)
      && db.orderItems == old(db.orderItems)[old(db.nextId) :=
           OrderItem(orderId, productId.value, quantity.value, priceAtTime.value)]
  {
    var problem := AddItemProblem(productId, quantity, priceAtTime);
    if problem.Some? {
      return BadRequest(problem.value);
    }
    if productId.value !in db.products {
      return NotFound(NoProduct);
    }
    if orderId !in db.orders {
      return NotFound(NoOrder);
    }
    var id := db.nextId;
    db.orderItems := db.orderItems[id := OrderItem(orderId, productId.value, quantity.value, priceAtTime.value)];
    db.nextId := db.nextId + 1;
    code := Created;
  }

  /** Because `addItemsToOrder` does not recompute the total, an order whose stored
      total was right is wrong after an item with a non-zero line total is added. */
  lemma AddedItemLeavesTotalStale(
    items: map<OrderItemId, OrderItem>, k: OrderItemId, item: OrderItem, order: Order)
    requires k !in items
    requires order.totalAmount == OrderTotal(items, item.orderId)
    requires LineTotal(item) != 0.0
    ensures order.totalAmount != OrderTotal(items[k := item], item.orderId)
  {
    OrderTotalInsert(items, k, item, item.orderId);
  }

  /** `removeItemsFromOrder`: checks the product, then the order, deletes every item
      pairing them (404 when there was none), and deletes the order itself when no
      item of it remains. */
  method RemoveItemsFromOrder(db: Store, orderId: OrderId, productId: ProductId) returns (code: Code)
    requires db.Valid()
    modifies db`orderItems, db`orders
    ensures db.Valid()
    ensures code == (
      if productId !in db.products then NotFound(NoProduct)
      else if orderId !in old(db.orders) then NotFound(NoOrder)
      else if PairItems(old(db.orderItems), orderId, productId) == map[] then NotFound(NoOrderItem)
      else Success)
    ensures code != Success ==> db.orderItems == old(db.orderItems) && db.orders == old(db.orders)
    ensures code == Success ==>
      db.orderItems == old(db.orderItems) - PairItems(old(db.orderItems), orderId, productId).Keys
    ensures code == Success ==>
      db.orders == if ItemsOf(db.orderItems, orderId) == map[] then old(db.orders) - {orderId} else old(db.orders)
  {
    var productExists := productId in db.products;
    var orderExists := orderId in db.orders;
    if !productExists {
      return NotFound(NoProduct);
    }
    if !orderExists {
      return NotFound(NoOrder);
    }
    var removed := PairItems(db.orderItems, orderId, productId);
    if removed == map[] {
      return NotFound(NoOrderItem);
    }
    db.orderItems := db.orderItems - removed.Keys;
    var remaining := ItemsOf(db.orderItems, orderId);
    if remaining == map[] {
      db.orders := db.orders - {orderId};
    }
    code := Success;
  }

  /** After a successful removal, either the order is gone and none of its items is
      left, or it is kept unchanged with its remaining items. */
  lemma RemovalKeepsOrderOnlyWithItems(
    orders: map<OrderId, Order>, items: map<OrderItemId, OrderItem>, orderId: OrderId, productId: ProductId)
    requires orderId in orders
    ensures var left := items - PairItems(items, orderId, productId).Keys;
            var kept := if ItemsOf(left, orderId) == map[] then orders - {orderId} else orders;
            && (orderId in kept <==> exists k :: k in left && left[k].orderId == orderId)
            && (orderId in kept ==> kept[orderId] == orders[orderId])
            && (forall k :: k in left ==> !(left[k].orderId == orderId && left[k].productId == productId))
  {
    var left := items - PairItems(items, orderId, productId).Keys;
    if exists k :: k in left && left[k].orderId == orderId {
      var k :| k in left && left[k].orderId == orderId;
      assert k in ItemsOf(left, orderId);
    }
  }
}
