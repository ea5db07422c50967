/** The relational store the controllers read and write: one map from id to row
    per table, held by a single `Store` object that the handlers update in place. */
module Db {
  import opened Common

  type UserId = nat
  type CategoryId = nat
  type ProductId = nat
  type CartId = nat
  type CartItemId = nat
  type AddressId = nat
  type OrderId = nat
  type OrderItemId = nat
  type PaymentId = nat

  /** Free-form key/value metadata attached to a payment. */
  type Metadata = map<string, string>

  datatype User = User(email: string)

  datatype Category = Category(name: string)

  datatype Product = Product(
    sku: string,
    name: string,
    description: Option<string>,
    price: real,
    stockQuantity: real,
    categoryId: Option<CategoryId>,
    imageUrl: Option<string>,
    weight: Option<real>,
    dimensions: Option<string>,
    isActive: Option<bool>)

  datatype Cart = Cart(userId: UserId)

  datatype CartItem = CartItem(cartId: CartId, productId: ProductId, quantity: int)

  /** The six address-line columns a client supplies for a shipping address. */
  datatype AddressLines = AddressLines(
    line1: string,
    line2: Option<string>,
    city: string,
    state: string,
    postalCode: string,
    country: string)

  datatype Address = Address(userId: UserId, lines: AddressLines, isDefault: bool)

  /** An order; `status` is a free string column, because the payment reconciler
      writes "payment_failed", which is not one of `OrderStatuses`. */
  datatype Order = Order(
    userId: UserId,
    status: string,
    totalAmount: real,
    shippingAddressId: AddressId)

  datatype OrderItem = OrderItem(
    orderId: OrderId,
    productId: ProductId,
    quantity: int,
    priceAtTime: real)

  /** A payment row; `amount` and `refundedAmount` are in minor currency units. */
  datatype Payment = Payment(
    orderId: OrderId,
    intentId: string,
    testClockId: string,
    customerId: string,
    methodId: string,
    amount: int,
    currency: string,
    status: string,
    methodType: string,
    metadata: Option<Metadata>,
    testMode: bool,
    errorMessage: Option<string>,
    refundStatus: Option<string>,
    refundedAmount: int)

  /** A payment intent as the payment gateway reports it: its id, its status and
      the `order_id` entry of its metadata, if any. */
  datatype Intent = Intent(id: string, status: string, metadataOrderId: Option<OrderId>)

  /** The values of the `OrderStatus` enumeration. */
  const OrderStatuses: set<string> :=
    {"pending", "processing", "paid", "shipped", "delivered", "cancelled", "refunded"}

  /** Every key of `m` is a positive id below `bound`, so `bound` is a fresh id. */
  ghost predicate IdsBelow<V>(m: map<nat, V>, bound: nat)
  {
    forall k :: k in m ==> 0 < k < bound
  }

  /** No two products share a SKU. */
  ghost predicate SkusUnique(products: map<ProductId, Product>)
  {
    forall i, j :: i in products && j in products && i != j ==> products[i].sku != products[j].sku
  }

  /** Some row of `items` pairs `cartId` with `productId`. */
  predicate HasCartPair(items: map<CartItemId, CartItem>, cartId: CartId, productId: ProductId)
  {
    exists k :: k in items && items[k].cartId == cartId && items[k].productId == productId
  }

  /** No (cart, product) pair occurs in two cart items. */
  ghost predicate CartPairsUnique(items: map<CartItemId, CartItem>)
  {
    forall i, j :: i in items && j in items && i != j ==>
      (items[i].cartId != items[j].cartId || items[i].productId != items[j].productId)
  }

  /** Every cart item has a positive quantity. */
  ghost predicate CartQuantitiesPositive(items: map<CartItemId, CartItem>)
  {
    forall k :: k in items ==> items[k].quantity > 0
  }

  /** The user owns at least one shipping address. */
  predicate HasAddress(addresses: map<AddressId, Address>, userId: UserId)
  {
    exists k :: k in addresses && addresses[k].userId == userId
  }

  /** No user has two default shipping addresses. */
  ghost predicate AtMostOneDefault(addresses: map<AddressId, Address>)
  {
    forall i, j ::
      i in addresses && j in addresses && i != j && addresses[i].isDefault && addresses[j].isDefault
      ==> addresses[i].userId != addresses[j].userId
  }

  /** A payment whose refunded amount does not exceed its amount. */
  predicate RefundWithinAmount(p: Payment)
  {
    p.refundedAmount <= p.amount
  }

  /** Whether `orderId` names an order owned by `userId`. */
  predicate OwnsOrder(orders: map<OrderId, Order>, orderId: OrderId, userId: UserId)
  {
    orderId in orders && orders[orderId].userId == userId
  }

  /** The tables of the database. Ids of new rows are drawn from one counter,
      `nextId`, that is above every id in use. */
  class Store {
    var users: map<UserId, User>
    var categories: map<CategoryId, Category>
    var products: map<ProductId, Product>
    var carts: map<CartId, Cart>
    var cartItems: map<CartItemId, CartItem>
    var addresses: map<AddressId, Address>
    var orders: map<OrderId, Order>
    var orderItems: map<OrderItemId, OrderItem>
    var payments: map<PaymentId, Payment>
    var nextId: nat

    /** The constraints every handler relies on and preserves. */
    ghost predicate Valid()
      reads this
    {
      && 0 < nextId
      && IdsBelow(users, nextId) && IdsBelow(categories, nextId)
      && IdsBelow(products, nextId) && IdsBelow(carts, nextId)
      && IdsBelow(cartItems, nextId) && IdsBelow(addresses, nextId)
      && IdsBelow(orders, nextId) && IdsBelow(orderItems, nextId)
      && IdsBelow(payments, nextId)
      && SkusUnique(products)
      && CartPairsUnique(cartItems) && CartQuantitiesPositive(cartItems)
      && AtMostOneDefault(addresses)
    }

    /** An empty database. */
    constructor ()
      ensures Valid()
      ensures users == map[] && categories == map[] && products == map[]
      ensures carts == map[] && cartItems == map[] && addresses == map[]
      ensures orders == map[] && orderItems == map[] && payments == map[]
    {
      users, categories, products := map[], map[], map[];
      carts, cartItems, addresses := map[], map[], map[];
      orders, orderItems, payments := map[], map[], map[];
      nextId := 1;
    }
  }
}
