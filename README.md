# E-commerce backend: store rules and payment reconciliation, in Dafny

This project models the core of a small Express/Postgres e-commerce backend: the
rules its controllers apply to the relational store, and the reconciler that maps
payment-gateway intent statuses onto payments and orders.

- `db.dfy` (module `Db`): the rows of the tables `users`, `categories`, `products`,
  `shopping_carts`, `cart_items`, `shipping_addresses`, `orders`, `order_items` and
  `payments`, and one class `Store` holding a map from id to row per table. Its
  `Valid()` invariant says that ids are fresh below the counter `nextId`, SKUs are
  unique, every (cart, product) pair occurs once in `cart_items` with a positive
  quantity, and no user has two default addresses. Every handler that writes
  requires and preserves it.
- `common.dfy` (module `Common`): optional request fields, JSON values and
  JavaScript truthiness, and the replies (`Code`: 200, 201, 400 with its message,
  401, 404 with what was missing, 500).
- `status_handler.dfy`: `handlePaymentStatus` and `handleStripeWebhook`.
- `orders.dfy`, `payments.dfy`, `carts.dfy`, `products.dfy`, `addresses.dfy`: one
  module per controller.

Each handler that writes is a method that takes the `Store`, with a field frame
(`modifies db`orders, db`nextId`), so the tables it does not list are unchanged. Its
postcondition gives the reply it sends and the exact new contents of the tables it
may change. When it refuses a request, those tables are unchanged. Read-only
handlers are functions of the store. The caller identity taken from the cookie is an
`Option<UserId>` parameter. Values produced by the payment gateway are parameters:
the created test clock, customer and payment method, the intent's id and status, and
whether the webhook signature verified.

Prices and totals are `real`, with exact arithmetic. `Math.round(x)` is
`(x + 0.5).Floor`, because JavaScript rounds halves up. An order's expected total
`OrderTotal` is the sum of quantity × price-at-time over its items. It is a ghost
sum over a map, and a lemma shows the result does not depend on the order in which
items are taken. `ComputeTotal` is the `reduce` of `updateOrder`, written as a loop,
and is proved equal to it.

Where the code does something other than its names, messages or types suggest, the
model follows the code:

- `updateOrder`, `deleteOrder` and `updatePayment` end their query with `.single()`.
  When no row matches, the client reports an error, and the handler rethrows it at
  the line before its 404 branch. The reply is therefore 500 (`ServerError`), not the
  404 that is written.
- Only `updateOrder` recomputes an order's total from its items; `createOrder`
  stores the total the client sends. `addItemsToOrder` and `removeItemsFromOrder`
  change the items without touching the total, and `addItemsToOrder` inserts a
  second item for a product already in the order.
  `AddedItemLeavesTotalStale` shows that a correct total becomes wrong after an insert.
- The reconciler writes the order status `payment_failed`, which is not an
  `OrderStatus` value. So the order status is a free string column.
- `createShippingAddress` sends 400 when the user already has an address, but it
  still inserts the new row (not as the default). Its second reply then fails,
  because the headers were already sent. The model returns the first reply and the
  insert.
- `createPayment` stores the intent's status, not the body's `status` field, which
  is read but never used.
- `updatePayment` writes only the fields present in the body, because absent fields
  are dropped from the JSON update. A body with none of its seven fields therefore
  sets no column, no row comes back, and `.single()` turns that into 500. It stores
  the currency as given, without upper-casing it, and does not re-check the refund
  bound.

## Model

| member | source | states |
|---|---|---|
| `StatusHandler.MapIntentStatus` | src/helpers/StatusHandler.ts:16-46 | total over all strings; the result is one of the six payment statuses; "pending" exactly for `requires_payment_method` or an unrecognised status; "completed" exactly for `succeeded` |
| `StatusHandler.MapIntentStatusInjective` | src/helpers/StatusHandler.ts:18-46 | two recognised intent statuses with the same non-pending internal status are equal |
| `StatusHandler.ReconcilePayments` | src/helpers/StatusHandler.ts:49-56 | exactly the payments with that order id and intent id take the mapped status; every other row is unchanged; no row is added or removed |
| `StatusHandler.OrderStatusWritten` | src/helpers/StatusHandler.ts:58-78 | a status is written to the order exactly for `succeeded` and `requires_payment_method`, and it is "paid" or "payment_failed" |
| `StatusHandler.OrderStatusWrittenCases` | src/helpers/StatusHandler.ts:58-78 | the order is set to "paid" exactly on `succeeded` and to "payment_failed" exactly on `requires_payment_method`, otherwise not written; of the two, only "paid" is an `OrderStatus` value |
| `StatusHandler.ReconcileOrders` | src/helpers/StatusHandler.ts:58-78 | only the intent's order can change, and only its status; with no status to write, or an absent order, the table is unchanged |
| `StatusHandler.ReconcileOrdersTouchesOnlyTarget` | src/helpers/StatusHandler.ts:60-77 | any order that changes is the intent's order; its new status is "paid" or "payment_failed"; its other fields are kept |
| `StatusHandler.ReconcileIdempotent` | src/helpers/StatusHandler.ts:49-78 | reconciling the same intent twice gives the same payments and orders as reconciling it once |
| `StatusHandler.UnlinkedIntentChangesNothing` | src/helpers/StatusHandler.ts:49-78 | an intent without an order id in its metadata changes no payment and no order |
| `StatusHandler.HandlePaymentStatus` | src/helpers/StatusHandler.ts:11-84 | the payments and orders after the handler are exactly `ReconcilePayments` and `ReconcileOrders` of those before |
| `StatusHandler.HandleStripeWebhook` | src/helpers/StatusHandler.ts:87-123 | a failed signature gives 400 and no change; a verified event gives 200; only the four payment-intent event types reconcile, with the order id from the intent's metadata; other types change nothing |
| `Orders.SumLinesRemove` | src/controllers/OrdersControllers.ts:121-122 | the sum of line totals equals any one item's line total plus the sum of the rest |
| `Orders.SumLinesSplit` | src/controllers/OrdersControllers.ts:121-122 | the sum over a map is the sum inside a key set plus the sum outside it |
| `Orders.OrderTotal` | src/controllers/OrdersControllers.ts:121-122 | the sum of quantity × price-at-time over the order's items; non-negative when every such quantity and price is |
| `Orders.SumLinesNonNegative` | src/controllers/OrdersControllers.ts:121-122 | items with non-negative quantities and prices sum to a non-negative total |
| `Orders.OrderTotalOfNoItems` | src/controllers/OrdersControllers.ts:121-122 | an order with no items totals 0 |
| `Orders.TwoItemTotalExample` | src/controllers/OrdersControllers.ts:121-122 | items 2 × 10.00 and 1 × 5.00 total 25.00; without the second product the total is 20.00 |
| `Orders.ComputeTotal` | src/controllers/OrdersControllers.ts:113-122 | the fold of `sum + quantity * price_at_time` from 0 over the order's items equals `OrderTotal` |
| `Orders.OrderTotalInsert` | src/controllers/OrdersControllers.ts:263-273 | inserting an item adds its line total to its own order's total and leaves every other order's total unchanged |
| `Orders.OrderTotalRemovePair` | src/controllers/OrdersControllers.ts:303-306 | deleting the (order, product) items lowers that order's total by exactly their line totals |
| `Orders.IsOrderStatus` | src/controllers/OrdersControllers.ts:44 | a status passes exactly when it is one of the seven `OrderStatus` values pending, processing, paid, shipped, delivered, cancelled, refunded; an absent status and "payment_failed" fail |
| `Orders.GetOrders` | src/controllers/OrdersControllers.ts:7-30 | 401 exactly without a caller; otherwise exactly the caller's orders, unchanged |
| `Orders.CreateOrder` | src/controllers/OrdersControllers.ts:33-94 | 401 without a caller, 400 for a status outside `OrderStatus`, 404 for an unknown user or address, and no change in those cases; otherwise one new order with the caller's id and the body's status, total and address |
| `Orders.UpdateOrder` | src/controllers/OrdersControllers.ts:96-146 | 401 / 400 as in create; only the order with that id owned by the caller changes; its status becomes the body's and its total the sum of its items; no such order gives 500 and no change |
| `Orders.DeleteOrder` | src/controllers/OrdersControllers.ts:150-181 | 401 without a caller; removes exactly the order with that id owned by the caller; otherwise 500 and no change |
| `Orders.AddItemProblem` | src/controllers/OrdersControllers.ts:230-237 | the request passes exactly when product id, quantity and price are present and non-zero and the quantity is positive; a present quantity ≤ 0 is reported first as "Invalid quantity"; every other refusal is "Invalid or missing data" |
| `Orders.AddItemsToOrder` | src/controllers/OrdersControllers.ts:225-284 | 400 for invalid data, then 404 for an unknown product, then 404 for an unknown order, with no change; otherwise exactly one new item with the given values; the orders table, and so the total, is not written; no check for an existing (order, product) item |
| `Orders.AddedItemLeavesTotalStale` | src/controllers/OrdersControllers.ts:263-277 | a stored total that matched the items no longer matches after an insert with a non-zero line total |
| `Orders.RemoveItemsFromOrder` | src/controllers/OrdersControllers.ts:286-329 | 404 for an absent product (checked first), order or item, with no change; otherwise exactly the (order, product) items are deleted, and the order is deleted when none of its items remains |
| `Orders.RemovalKeepsOrderOnlyWithItems` | src/controllers/OrdersControllers.ts:313-322 | after a removal the order survives exactly when it still has an item, and then it is unchanged; no (order, product) item remains |
| `Payments.AmountInCents` | src/controllers/PaymentsControllers.ts:131 | the amount is the nearest integer to 100 × total, with halves rounded up |
| `Payments.AmountPositiveIff` | src/controllers/PaymentsControllers.ts:131-137 | the amount is positive exactly when the total is at least 0.005 |
| `Payments.AmountOfWholeCents` | src/controllers/PaymentsControllers.ts:131 | a total of c/100 gives the amount c |
| `Payments.ToUpper` | src/controllers/PaymentsControllers.ts:168 | same length; every ASCII lower-case letter is upper-cased, other characters kept |
| `Payments.ToLower` | src/controllers/PaymentsControllers.ts:149 | same length; every ASCII upper-case letter is lower-cased, other characters kept |
| `Payments.CurrencyCasesAgree` | src/controllers/PaymentsControllers.ts:149-168 | the stored currency is the upper-case form of the currency sent to the gateway; the stored form has no lower-case letter and the sent form no upper-case letter |
| `Payments.CurrencyOf` | src/controllers/PaymentsControllers.ts:66 | the body's currency, "USD" when absent |
| `Payments.RefundedOf` | src/controllers/PaymentsControllers.ts:72 | the body's refunded amount, 0 when absent |
| `Payments.MetadataOf` | src/controllers/PaymentsControllers.ts:153 | the metadata sent to the gateway is the body's, the empty map when absent |
| `Payments.GetPayments` | src/controllers/PaymentsControllers.ts:8-58 | 401 exactly without a caller; otherwise exactly the payments whose order belongs to the caller (none when the caller has no order) |
| `Payments.GetPaymentsByOrder` | src/controllers/PaymentsControllers.ts:314-338 | exactly the payments with that order id |
| `Payments.CreatePayment` | src/controllers/PaymentsControllers.ts:60-195 | 404 for an unknown order or user, 400 for an amount ≤ 0 or a refund above it, with no insert; otherwise the gateway is asked for the amount in the lower-cased currency (default "USD") with the body's metadata (default empty), and one payment is inserted with the route's order, the amount, the upper-cased currency, the intent's id and status, and the refund (default 0); every inserted payment has amount > 0 and refund ≤ amount |
| `Payments.Patched` | src/controllers/PaymentsControllers.ts:214-227 | each of the seven listed fields takes the body's value when present and keeps its value when absent; no other field changes; an empty body changes nothing |
| `Payments.UpdateCanExceedRefundBound` | src/controllers/PaymentsControllers.ts:214-227 | an update can store a refunded amount above the payment's amount |
| `Payments.UpdatePayment` | src/controllers/PaymentsControllers.ts:198-247 | only the row with that id changes, to `Patched`; no such row, or a body with none of the seven fields, gives 500 and no change |
| `Carts.InsertKeepsCartItemsValid` | src/controllers/CartsControllers.ts:111-134 | inserting a new pair with a positive quantity keeps pairs unique and quantities positive |
| `Carts.CreateCart` | src/controllers/CartsControllers.ts:15-49 | 401 without a caller, 404 for an unknown user, with no insert; otherwise exactly one new cart owned by the caller |
| `Carts.DeleteCart` | src/controllers/CartsControllers.ts:51-75 | 404 for an absent cart; otherwise exactly that cart is removed |
| `Carts.AddProductToCart` | src/controllers/CartsControllers.ts:99-142 | in this order: 404 unknown cart, 400 product already in the cart, 400 missing or non-positive quantity, 404 unknown product, with no insert; otherwise exactly one new item |
| `Carts.DeleteProductFromCart` | src/controllers/CartsControllers.ts:145-179 | 404 for an absent cart or item, with no change; otherwise exactly the (cart, product) rows are deleted |
| `Carts.DeletePairRemovesOneRow` | src/controllers/CartsControllers.ts:168-171 | with unique pairs, the delete removes exactly one row, the pair is gone and every other row is kept |
| `Products.RequiredFieldsValid` | src/controllers/ProductsControllers.ts:24-36 | the fields pass exactly when SKU and name are non-empty strings and price and stock quantity are numbers other than 0; a price or stock quantity sent as a string fails |
| `Products.ZeroStockRefused` | src/controllers/ProductsControllers.ts:24-36 | a stock quantity that is 0 or absent fails validation |
| `Products.NewProduct` | src/controllers/ProductsControllers.ts:47-61 | the inserted row carries the given SKU, name, price and stock quantity |
| `Products.CreateProduct` | src/controllers/ProductsControllers.ts:6-72 | 400 for a missing body, invalid required fields or a SKU in use, with no change; otherwise one row with the ten given fields |
| `Products.Rewritten` | src/controllers/ProductsControllers.ts:105-119 | a rewritten product is the product the same input would create under its old SKU |
| `Products.RewriteBySku` | src/controllers/ProductsControllers.ts:105-119 | the rows with that SKU are rewritten; no SKU changes; no row is added or removed; all other rows are kept |
| `Products.UpdateProduct` | src/controllers/ProductsControllers.ts:74-130 | 400 for a missing body or invalid fields, with no change; otherwise `RewriteBySku`, with 200 even when no row matched |
| `Products.DeleteProduct` | src/controllers/ProductsControllers.ts:132-148 | 400 without a SKU; otherwise exactly the rows with that SKU are deleted, with 200 whether or not one existed |
| `Products.GetProduct` | src/controllers/ProductsControllers.ts:150-171 | 400 without a SKU; otherwise the product with that SKU and its category's name, or nothing when no such product has an existing category |
| `Addresses.CreateShippingAddress` | src/controllers/AddressControllers.ts:6-53 | 401 and no change without a caller; otherwise one new row for the caller, the default exactly when the caller had no address; the reply is 400 when they had one |
| `Addresses.InsertKeepsOneDefault` | src/controllers/AddressControllers.ts:15-44 | inserting a default only for a user without addresses keeps at most one default per user |
| `Addresses.FirstAddressIsTheDefault` | src/controllers/AddressControllers.ts:15-44 | after a user's first address is inserted it is the user's only address, and the default |
| `Addresses.GetShippingAddresses` | src/controllers/AddressControllers.ts:56-73 | 400 exactly without a user id; otherwise exactly that user's addresses |
| `Addresses.UpdateShippingAddress` | src/controllers/AddressControllers.ts:75-125 | 401 without a caller, 404 unless the address belongs to the caller, with no change; otherwise only that row's six address lines change, never its owner or default flag |
| `Addresses.DeleteShippingAddress` | src/controllers/AddressControllers.ts:127-155 | 400 without an id, 404 for an absent row, with no change; otherwise exactly that row is deleted, whoever owns it |
| `Addresses.DeleteCanLeaveNoDefault` | src/controllers/AddressControllers.ts:143-146 | deleting a default address can leave its user with addresses but no default |

## Left out

- HTTP mechanics: routing, request parsing and the cookie's JSON parsing. The caller id is an optional parameter, and a reply is modelled by its status and message kind only.
- The Stripe SDK: test clocks, customers, payment methods, intents and webhook event construction. Their results are parameters. Their external effects happen before the amount checks and are not modelled.
- Failures of the data store or of the gateway, which the handlers turn into 500, into the 404 of the failed lookup, or into the webhook's 400. Also left out: the schema's constraints and referential actions, such as foreign keys and what happens to the items of a deleted order or cart. The schema is not part of this model.
- Floating point: prices, totals and the rounding in `createPayment` use exact `real` arithmetic. `parseInt` and `parseFloat` on numeric strings are not modelled: quantities are integers and prices are numbers.
- Request values of an unexpected JSON type are not modelled, except the `typeof` checks on a product's price and stock quantity. So are `null` values in update bodies.
- The `updated_at` timestamps, and concurrency between requests. Each handler runs as one atomic method.
- Row ids come from one counter shared by all tables. The database numbers each table separately. Only the freshness of a new id matters here.
- `addItemsToOrder` takes its order id from the route, so it is always present, and the `!order_id` test never fails.
- The handlers `getOrderById`, `getOrderWithInfo`, `getPaymentById`, `deletePayment`, `getCarts`, `getCartById` and `getProducts`. These are single lookups, joins or deletes without rules of their own. The user, category and authentication code is also left out: it is hashing and token handling around pass-through SQL.
- Payments.ToUpper: only ASCII letters change case. JavaScript's Unicode case mapping is not modelled.
- Payments.ToLower: only ASCII letters change case, as for `ToUpper`.
