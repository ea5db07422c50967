/** The payment-status reconciler: maps a payment-gateway intent status to the
    internal payment status, writes it to the intent's payment rows, and moves the
    order to "paid" or "payment_failed"; plus the webhook that drives it. */
module StatusHandler {
  import opened Common
  import opened Db

  /** The intent statuses the reconciler recognises by name. */
  const KnownIntentStatuses: set<string> := {
    "requires_payment_method", "requires_confirmation", "requires_action",
    "processing", "succeeded", "canceled"}

  /** The internal payment statuses the reconciler writes. */
  const PaymentStatuses: set<string> := {
    "pending", "awaiting_confirmation", "requires_authentication",
    "processing", "completed", "cancelled"}

  /** The order statuses the reconciler writes. */
  const ReconcilerOrderStatuses: set<string> := {"paid", "payment_failed"}

  /** The webhook event types that trigger reconciliation. */
  const ReconciledEvents: set<string> := {
    "payment_intent.succeeded", "payment_intent.payment_failed",
    "payment_intent.canceled", "payment_intent.processing"}

  /** The internal payment status recorded for a gateway intent status. Every
      string has one; "pending" stands both for a failed payment method and for any
      status the reconciler does not recognise. */
  function MapIntentStatus(s: string): (r: string)
    ensures r in PaymentStatuses
    ensures r == "pending" <==> s == "requires_payment_method" || s !in KnownIntentStatuses
    ensures r == "completed" <==> s == "succeeded"
  {
    if s == "requires_payment_method" then "pending"
    else if s == "requires_confirmation" then "awaiting_confirmation"
    else if s == "requires_action" then "requires_authentication"
    else if s == "processing" then "processing"
    else if s == "succeeded" then "completed"
    else if s == "canceled" then "cancelled"
    else "pending"
  }

  /** Apart from "pending", the mapping loses no information: two recognised
      intent statuses that map to the same non-pending status are equal. */
  lemma MapIntentStatusInjective(a: string, b: string)
    requires a in KnownIntentStatuses && b in KnownIntentStatuses
    requires MapIntentStatus(a) == MapIntentStatus(b) != "pending"
    ensures a == b
  {
  }

  /** Whether a payment row belongs to the intent and the order being reconciled
      (`WHERE order_id = $2 AND stripe_payment_intent_id = $3`); a missing order id
      matches no row. */
  predicate PaymentMatches(p: Payment, orderId: Option<OrderId>, intent: Intent)
  {
    orderId.Some? && p.orderId == orderId.value && p.intentId == intent.id
  }

  /** The payments table after the reconciler's UPDATE: the matching rows take the
      mapped status, every other row is untouched. */
  function ReconcilePayments(payments: map<PaymentId, Payment>, orderId: Option<OrderId>, intent: Intent)
    : (r: map<PaymentId, Payment>)
    ensures r.Keys == payments.Keys
    ensures forall id :: id in payments && PaymentMatches(payments[id], orderId, intent) ==>
      r[id] == payments[id].(status := MapIntentStatus(intent.status))
    ensures forall id :: id in payments && !PaymentMatches(payments[id], orderId, intent) ==>
      r[id] == payments[id]
  {
    map id | id in payments ::
      if PaymentMatches(payments[id], orderId, intent)
      then payments[id].(status := MapIntentStatus(intent.status))
      else payments[id]
  }

  /** The order status the reconciler writes for an intent status, if any. */
  function OrderStatusWritten(s: string): (r: Option<string>)
    ensures r.Some? <==> s in {"succeeded", "requires_payment_method"}
    ensures r.Some? ==> r.value in ReconcilerOrderStatuses
  {
    if s == "succeeded" then Some("paid")
    else if s == "requires_payment_method" then Some("payment_failed")
    else None
  }

  /** The order becomes "paid" exactly on "succeeded" and "payment_failed" exactly on
      "requires_payment_method"; every other status leaves the orders alone. Of the
      two statuses written, only "paid" is an `OrderStatus` value. */
  lemma OrderStatusWrittenCases(s: string)
    ensures OrderStatusWritten(s) == Some("paid") <==> s == "succeeded"
    ensures OrderStatusWritten(s) == Some("payment_failed") <==> s == "requires_payment_method"
    ensures OrderStatusWritten(s).Some? ==> OrderStatusWritten(s).value in ReconcilerOrderStatuses
    ensures OrderStatusWritten(s).Some? ==> (OrderStatusWritten(s).value in OrderStatuses <==> s == "succeeded")
  {
  }

  /** The orders table after the reconciler's UPDATEs (`WHERE id = $1`). */
  function ReconcileOrders(orders: map<OrderId, Order>, orderId: Option<OrderId>, s: string)
    : (r: map<OrderId, Order>)
    ensures r.Keys == orders.Keys
    ensures forall id :: id in orders && (orderId != Some(id) || OrderStatusWritten(s).None?) ==>
      r[id] == orders[id]
    ensures forall id :: id in orders && orderId == Some(id) && OrderStatusWritten(s).Some? ==>
      r[id] == orders[id].(status := OrderStatusWritten(s).value)
  {
    match OrderStatusWritten(s)
    case None => orders
    case Some(written) =>
      if orderId.Some? && orderId.value in orders
      then orders[orderId.value := orders[orderId.value].(status := written)]
      else orders
  }

  /** Only the order named by the intent can change, and only to "paid" or
      "payment_failed"; a status change of any order means it is that order. */
  lemma ReconcileOrdersTouchesOnlyTarget(orders: map<OrderId, Order>, orderId: Option<OrderId>, s: string, id: OrderId)
    requires id in orders
    requires ReconcileOrders(orders, orderId, s)[id] != orders[id]
    ensures orderId == Some(id)
    ensures ReconcileOrders(orders, orderId, s)[id].status in ReconcilerOrderStatuses
    ensures ReconcileOrders(orders, orderId, s)[id] == orders[id].(status := ReconcileOrders(orders, orderId, s)[id].status)
  {
  }

  /** Replaying the same intent is harmless: reconciling twice gives the same payments
      and orders as reconciling once. */
  lemma {:induction false} ReconcileIdempotent(
    payments: map<PaymentId, Payment>, orders: map<OrderId, Order>, orderId: Option<OrderId>, intent: Intent)
    ensures ReconcilePayments(ReconcilePayments(payments, orderId, intent), orderId, intent)
         == ReconcilePayments(payments, orderId, intent)
    ensures ReconcileOrders(ReconcileOrders(orders, orderId, intent.status), orderId, intent.status)
         == ReconcileOrders(orders, orderId, intent.status)
  {
    var once := ReconcilePayments(payments, orderId, intent);
    var twice := ReconcilePayments(once, orderId, intent);
    forall id | id in once
      ensures twice[id] == once[id]
    {
      assert PaymentMatches(once[id], orderId, intent) == PaymentMatches(payments[id], orderId, intent);
    }
  }

  /** An intent whose metadata carries no order id reconciles nothing. */
  lemma UnlinkedIntentChangesNothing(payments: map<PaymentId, Payment>, orders: map<OrderId, Order>, intent: Intent)
    ensures ReconcilePayments(payments, None, intent) == payments
    ensures ReconcileOrders(orders, None, intent.status) == orders
  {
  }

  /** `handlePaymentStatus`: record the mapped status on the intent's payments, then
      move the order to "paid" or "payment_failed" when the intent says so. */
  method HandlePaymentStatus(db: Store, intent: Intent, orderId: Option<OrderId>)
    requires db.Valid()
    modifies db`payments, db`orders
    ensures db.Valid()
    ensures db.payments == ReconcilePayments(old(db.payments), orderId, intent)
    ensures db.orders == ReconcileOrders(old(db.orders), orderId, intent.status)
  {
    var dbStatus := MapIntentStatus(intent.status);
    db.payments := map id | id in db.payments ::
      if PaymentMatches(db.payments[id], orderId, intent)
      then db.payments[id].(status := dbStatus)
      else db.payments[id];
    if intent.status == "succeeded" && orderId.Some? && orderId.value in db.orders {
      db.orders := db.orders[orderId.value := db.orders[orderId.value].(status := "paid")];
    }
    if intent.status == "requires_payment_method" && orderId.Some? && orderId.value in db.orders {
      db.orders := db.orders[orderId.value := db.orders[orderId.value].(status := "payment_failed")];
    }
  }

  /** `handleStripeWebhook`: an event that fails signature verification is refused
      with 400 and changes nothing; a verified event is acknowledged, and only the
      four payment-intent event types reconcile, using the order id in the intent's
      metadata. */
  method HandleStripeWebhook(db: Store, signatureValid: bool, eventType: string, intent: Intent)
    returns (code: Code)
    requires db.Valid()
    modifies db`payments, db`orders
    ensures db.Valid()
    ensures code == if signatureValid then Success else BadRequest(WebhookError)
    ensures signatureValid && eventType in ReconciledEvents ==>
      && db.payments == ReconcilePayments(old(db.payments), intent.metadataOrderId, intent)
      && db.orders == ReconcileOrders(old(db.orders), intent.metadataOrderId, intent.status)
    ensures !(signatureValid && eventType in ReconciledEvents) ==>
      db.payments == old(db.payments) && db.orders == old(db.orders)
  {
    if !signatureValid {
      return BadRequest(WebhookError);
    }
    if eventType in ReconciledEvents {
      HandlePaymentStatus(db, intent, intent.metadataOrderId);
    }
    code := Success;
  }
}
