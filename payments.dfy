/** The payment handlers: creating a payment for an order (amount derivation and
    bounds, currency case, the stored record), listing, and updating payments. */
module Payments {
  import opened Common
  import opened Db

  /** `Math.round(total_amount * 100)`: the order total in minor units, rounded to
      the nearest integer with halves rounded up. */
  function AmountInCents(total: real): (cents: int)
    ensures cents as real - 0.5 <= total * 100.0 < cents as real + 0.5
  {
    (total * 100.0 + 0.5).Floor
  }

  /** The amount is positive exactly when the total is at least half a cent. */
  lemma AmountPositiveIff(total: real)
    ensures AmountInCents(total) > 0 <==> total >= 0.005
  {
  }

  /** A total that is a whole number of cents converts to exactly that number. */
  lemma AmountOfWholeCents(cents: int)
    ensures AmountInCents(cents as real / 100.0) == cents
  {
  }

  function UpperChar(c: char): char
  {
    if 'a' <= c <= 'z' then (c as int - 32) as char else c
  }

  function LowerChar(c: char): char
  {
    if 'A' <= c <= 'Z' then (c as int + 32) as char else c
  }

  /** `toUpperCase` on ASCII letters. */
  function ToUpper(s: string): (r: string)
    ensures |r| == |s|
    ensures forall i :: 0 <= i < |s| ==> r[i] == UpperChar(s[i])
  {
    seq(|s|, i requires 0 <= i < |s| => UpperChar(s[i]))
  }

  /** `toLowerCase` on ASCII letters. */
  function ToLower(s: string): (r: string)
    ensures |r| == |s|
    ensures forall i :: 0 <= i < |s| ==> r[i] == LowerChar(s[i])
  {
    seq(|s|, i requires 0 <= i < |s| => LowerChar(s[i]))
  }

  /** The currency stored is the upper-case form of the currency sent to the gateway,
      and neither form contains a letter of the other case. */
  lemma {:induction false} CurrencyCasesAgree(c: string)
    ensures ToUpper(ToLower(c)) == ToUpper(c)
    ensures forall i :: 0 <= i < |c| ==> !('a' <= ToUpper(c)[i] <= 'z') && !('A' <= ToLower(c)[i] <= 'Z')
  {
    var a, b := ToUpper(ToLower(c)), ToUpper(c);
    assert |a| == |b|;
    forall i | 0 <= i < |c| ensures a[i] == b[i] {
      assert a[i] == UpperChar(LowerChar(c[i]));
    }
  }

  /** The fields of a create-payment request body, each absent when not sent. */
  datatype PaymentRequest = PaymentRequest(
    currency: Option<string>,
    metadata: Option<Metadata>,
    testMode: Option<bool>,
    errorMessage: Option<string>,
    refundStatus: Option<string>,
    refundedAmount: Option<int>)

  /** The gateway objects created before the amount checks: test clock, customer
      and payment method. */
  datatype GatewayAccount = GatewayAccount(testClockId: string, customerId: string, methodId: string)

  /** What the handler asks the gateway for when it creates the payment intent; the
      metadata is what later carries the order id back to the webhook. */
  datatype IntentRequest =
    IntentRequest(amount: int, currency: string, customerId: string, methodId: string, metadata: Metadata)

  /** The body's currency, "USD" when absent. */
  function CurrencyOf(req: PaymentRequest): (c: string)
    ensures req.currency.Some? ==> c == req.currency.value
    ensures req.currency.None? ==> c == "USD"
  {
    if req.currency.Some? then req.currency.value else "USD"
  }

  /** The body's refunded amount, 0 when absent. */
  function RefundedOf(req: PaymentRequest): (refunded: int)
    ensures req.refundedAmount.Some? ==> refunded == req.refundedAmount.value
    ensures req.refundedAmount.None? ==> refunded == 0
  {
    if req.refundedAmount.Some? then req.refundedAmount.value else 0
  }

  /** The body's metadata, the empty map when absent. */
  function MetadataOf(req: PaymentRequest): (m: Metadata)
    ensures req.metadata.Some? ==> m == req.metadata.value
    ensures req.metadata.None? ==> m == map[]
  {
    if req.metadata.Some? then req.metadata.value else map[]
  }

  /** `getPayments`: collects the ids of the caller's orders, then returns the
      payments of those orders; no orders gives no payments. */
  function GetPayments(db: Store, caller: Option<UserId>): (r: Result<map<PaymentId, Payment>>)
    reads db
    ensures caller.None? <==> r == Err(Unauthorized)
    ensures r.Ok? ==> r.value.Keys <= db.payments.Keys
    ensures r.Ok? ==> forall id :: id in db.payments ==>
      (id in r.value <==> OwnsOrder(db.orders, db.payments[id].orderId, caller.value))
    ensures r.Ok? ==> forall id :: id in r.value ==> r.value[id] == db.payments[id]
  {
    if caller.None? then Err(Unauthorized)
    else
      var orderIds := set id | id in db.orders && db.orders[id].userId == caller.value;
      assert forall o :: OwnsOrder(db.orders, o, caller.value) ==> o in orderIds;
      if orderIds == {} then Ok(map[])
      else Ok(map id | id in db.payments && db.payments[id].orderId in orderIds :: db.payments[id])
  }

  /** `getPaymentsByOrder`: the payments of one order. */
  function GetPaymentsByOrder(db: Store, orderId: OrderId): (r: Result<map<PaymentId, Payment>>)
    reads db
    ensures r.Ok?
    ensures forall id :: id in r.value <==> id in db.payments && db.payments[id].orderId == orderId
    ensures forall id :: id in r.value ==> r.value[id] == db.payments[id]
  {
    Ok(map id | id in db.payments && db.payments[id].orderId == orderId :: db.payments[id])
  }

  /** `createPayment`: looks up the order and its user, derives the amount from the
      order total, refuses a non-positive amount and a refund above it, asks the
      gateway for an intent in the lower-case currency, and stores one payment with
      the upper-case currency, the intent's id and status, and the given refund. */
  method CreatePayment(db: Store, orderId: OrderId, req: PaymentRequest, account: GatewayAccount, intent: Intent)
    returns (code: Code, sent: Option<IntentRequest>)
    requires db.Valid()
    modifies db`payments, db`nextId
    ensures db.Valid()
    ensures code == (
      if orderId !in db.orders then NotFound(NoOrder)
      else if db.orders[orderId].userId !in db.users then NotFound(NoUser)
      else if AmountInCents(db.orders[orderId].totalAmount) <= 0 then BadRequest(InvalidAmount)
      else if RefundedOf(req) > AmountInCents(db.orders[orderId].totalAmount) then BadRequest(RefundExceedsAmount)
      else Created)
    ensures code != Created ==> sent.None? && db.payments == old(db.payments) && db.nextId == old(db.nextId)
    ensures code == Created ==>
      sent == Some(IntentRequest(AmountInCents(db.orders[orderId].totalAmount), ToLower(CurrencyOf(req)),
                                 account.customerId, account.methodId, MetadataOf(req)))
    ensures code == Created ==>
      && old(db.nextId) !in old(db.payments)
      && db.payments == old(db.payments)[old(db.nextId) := Payment(
           orderId, intent.id, account.testClockId, account.customerId, account.methodId,
           AmountInCents(db.orders[orderId].totalAmount), ToUpper(CurrencyOf(req)), intent.status, "card",
           req.metadata, if req.testMode.Some? then req.testMode.value else true,
           req.errorMessage, req.refundStatus, RefundedOf(req))]
    ensures code == Created ==>
      db.payments[old(db.nextId)].amount > 0 && RefundWithinAmount(db.payments[old(db.nextId)])
  {
    var currency := CurrencyOf(req);
    var refunded := RefundedOf(req);
    sent := None;
    if orderId !in db.orders {
      return NotFound(NoOrder), None;
    }
    var order := db.orders[orderId];
    if order.userId !in db.users {
      return NotFound(NoUser), None;
    }
    var amount := AmountInCents(order.totalAmount);
    if amount <= 0 {
      return BadRequest(InvalidAmount), None;
    }
    if refunded > amount {
      return BadRequest(RefundExceedsAmount), None;
    }
    sent := Some(IntentRequest(amount, ToLower(currency), account.customerId, account.methodId, MetadataOf(req)));
    var id := db.nextId;
    db.payments := db.payments[id := Payment(
      orderId, intent.id, account.testClockId, account.customerId, account.methodId,
      amount, ToUpper(currency), intent.status, "card", req.metadata,
      if req.testMode.Some? then req.testMode.value else true,
      req.errorMessage, req.refundStatus, refunded)];
    db.nextId := db.nextId + 1;
    code := Created;
  }

  /** The fields of an update-payment request body; an absent field is left out of
      the UPDATE and keeps its value. */
  datatype PaymentPatch = PaymentPatch(
    currency: Option<string>,
    status: Option<string>,
    metadata: Option<Metadata>,
    testMode: Option<bool>,
    errorMessage: Option<string>,
    refundStatus: Option<string>,
    refundedAmount: Option<int>)

  function Or<T>(x: Option<T>, otherwise: T): T
  {
    if x.Some? then x.value else otherwise
  }

  /** A payment row with the fields present in `patch` overwritten and the absent
      ones kept. Only the seven listed fields can change. */
  function Patched(p: Payment, patch: PaymentPatch): (r: Payment)
    ensures r == p.(currency := r.currency, status := r.status, metadata := r.metadata, testMode := r.testMode,
                    errorMessage := r.errorMessage, refundStatus := r.refundStatus, refundedAmount := r.refundedAmount)
    ensures r.currency == if patch.currency.Some? then patch.currency.value else p.currency
    ensures r.status == if patch.status.Some? then patch.status.value else p.status
    ensures r.metadata == if patch.metadata.Some? then patch.metadata else p.metadata
    ensures r.testMode == if patch.testMode.Some? then patch.testMode.value else p.testMode
    ensures r.errorMessage == if patch.errorMessage.Some? then patch.errorMessage else p.errorMessage
    ensures r.refundStatus == if patch.refundStatus.Some? then patch.refundStatus else p.refundStatus
    ensures r.refundedAmount == if patch.refundedAmount.Some? then patch.refundedAmount.value else p.refundedAmount
    ensures EmptyPatch(patch) ==> r == p
  {
    p.(currency := Or(patch.currency, p.currency),
       status := Or(patch.status, p.status),
       metadata := if patch.metadata.Some? then patch.metadata else p.metadata,
       testMode := Or(patch.testMode, p.testMode),
       errorMessage := if patch.errorMessage.Some? then patch.errorMessage else p.errorMessage,
       refundStatus := if patch.refundStatus.Some? then patch.refundStatus else p.refundStatus,
       refundedAmount := Or(patch.refundedAmount, p.refundedAmount))
  }

  /** An update does not re-check the refund bound: any payment can be given a
      refunded amount above its amount. */
  lemma UpdateCanExceedRefundBound(p: Payment)
    ensures !RefundWithinAmount(Patched(p, PaymentPatch(None, None, None, None, None, None, Some(p.amount + 1))))
  {
  }

  /** A body with none of the seven fields: the UPDATE then has no column to set. */
  predicate EmptyPatch(patch: PaymentPatch)
  {
    patch == PaymentPatch(None, None, None, None, None, None, None)
  }

  /** `updatePayment`: overwrites the fields present in the body on the payment with
      that id. When no row comes back, because there is no such payment or the body
      sets no column, `.single()` reports an error, rethrown as 500. */
  method UpdatePayment(db: Store, id: PaymentId, patch: PaymentPatch) returns (code: Code)
    requires db.Valid()
    modifies db`payments
    ensures db.Valid()
    ensures code == if id in old(db.payments) && !EmptyPatch(patch) then Success else ServerError
    ensures code != Success ==> db.payments == old(db.payments)
    ensures code == Success ==> db.payments == old(db.payments)[id := Patched(old(db.payments)[id], patch)]
  {
    if EmptyPatch(patch) || id !in db.payments {
      return ServerError;
    }
    db.payments := db.payments[id := Patched(db.payments[id], patch)];
    code := Success;
  }
}
