/**
 * The payment records: gateway transactions, orders with their order items,
 * and mobile-money payments that an administrator verifies by hand. A
 * mobile-money payment moves from pending to verified or rejected; verifying
 * it completes the order it is linked to. All rows live in one PaymentStore.
 */
module Payments {

  import opened Wrappers
  import opened Catalog
  import opened Carts

  type TransactionRowId = nat
  type OrderId = nat
  type PaymentId = nat
  /** A point in time (what `timezone.now()` returns), supplied by the caller. */
  type Time = int

  datatype TransactionStatus = TransactionPending | Successful | Failed
  datatype PaymentMethod = Flutterwave | PayPal

  /** A gateway transaction; its `transactionId` is unique among transactions. */
  datatype Transaction = Transaction(user: UserId, cart: Option<CartId>, transactionId: string, amount: Cents,
                                     currency: string, status: TransactionStatus, paymentMethod: PaymentMethod)

  datatype OrderStatus = OrderPending | Processing | Completed | Cancelled

  /** An order line: a snapshot of the product's name, image and price at ordering time. */
  datatype OrderItem = OrderItem(productName: string, productImage: Option<string>, quantity: int, unitPrice: Cents)

  /** An order; `transaction` is a one-to-one link to a gateway transaction. */
  datatype Order = Order(user: UserId, transaction: Option<TransactionRowId>, total: Cents, status: OrderStatus,
                         items: seq<OrderItem>)

  datatype PaymentStatus = Pending | Verified | Rejected

  /** A mobile-money payment awaiting (or past) manual verification. */
  datatype MobileMoneyPayment = MobileMoneyPayment(
    user: UserId, order: Option<OrderId>, cartCode: CartCode, provider: string, phoneNumber: string,
    transactionId: string, amount: Cents, status: PaymentStatus, verifiedAt: Option<Time>,
    verifiedBy: Option<UserId>, notes: string)

  /** The sum of an order's line amounts, quantity times unit price. */
  function OrderItemsTotal(items: seq<OrderItem>): (r: Cents)
    ensures items == [] ==> r == 0
    ensures (forall i :: 0 <= i < |items| ==> items[i].quantity >= 0 && items[i].unitPrice >= 0) ==> r >= 0
  {
    if items == [] then 0 else items[0].quantity * items[0].unitPrice + OrderItemsTotal(items[1..])
  }

  /** A freshly submitted payment: pending, unlinked, never verified, no notes. */
  function NewPayment(user: UserId, cartCode: CartCode, provider: string, phoneNumber: string,
                      transactionId: string, amount: Cents): (p: MobileMoneyPayment)
    ensures p.status == Pending && p.order.None? && p.verifiedAt.None? && p.verifiedBy.None? && p.notes == ""
    ensures p.transactionId == transactionId && p.amount == amount && p.user == user && p.cartCode == cartCode
  {
    MobileMoneyPayment(user, None, cartCode, provider, phoneNumber, transactionId, amount, Pending, None, None, "")
  }

  /** No two payments share a transaction id. */
  ghost predicate UniquePaymentTransactionIds(payments: map<PaymentId, MobileMoneyPayment>)
  {
    forall a, b :: a in payments && b in payments && a != b ==> payments[a].transactionId != payments[b].transactionId
  }

  /** No two gateway transactions share a transaction id. */
  ghost predicate UniqueTransactionIds(transactions: map<TransactionRowId, Transaction>)
  {
    forall a, b :: a in transactions && b in transactions && a != b
      ==> transactions[a].transactionId != transactions[b].transactionId
  }

  /** Every order's transaction exists, and no transaction belongs to two orders. */
  ghost predicate OneToOneTransactions(orders: map<OrderId, Order>, transactions: map<TransactionRowId, Transaction>)
  {
    && (forall o :: o in orders && orders[o].transaction.Some? ==> orders[o].transaction.value in transactions)
    && (forall a, b :: a in orders && b in orders && a != b && orders[a].transaction.Some?
          ==> orders[a].transaction != orders[b].transaction)
  }

  predicate TransactionIdUsed(payments: map<PaymentId, MobileMoneyPayment>, transactionId: string)
  {
    exists id :: id in payments && payments[id].transactionId == transactionId
  }

  /**
   * `verify(admin_user)` on one record: the payment becomes verified, is
   * stamped with the time, and records the admin only when one is given. The
   * current status is not checked, and no other field changes.
   */
  function VerifiedRecord(p: MobileMoneyPayment, now: Time, admin: Option<UserId>): (r: MobileMoneyPayment)
    ensures r.status == Verified && r.verifiedAt == Some(now)
    ensures admin.Some? ==> r.verifiedBy == admin
    ensures admin.None? ==> r.verifiedBy == p.verifiedBy
    ensures r.order == p.order && r.notes == p.notes
    ensures r.(status := p.status, verifiedAt := p.verifiedAt, verifiedBy := p.verifiedBy) == p
  {
    p.(status := Verified, verifiedAt := Some(now), verifiedBy := if admin.Some? then admin else p.verifiedBy)
  }

  /**
   * `reject(reason)` on one record: the payment becomes rejected and its notes
   * are replaced only by a non-empty reason. The current status is not checked;
   * the verification stamp and the order are left alone.
   */
  function RejectedRecord(p: MobileMoneyPayment, reason: string): (r: MobileMoneyPayment)
    ensures r.status == Rejected
    ensures reason != "" ==> r.notes == reason
    ensures reason == "" ==> r.notes == p.notes
    ensures r.verifiedAt == p.verifiedAt && r.verifiedBy == p.verifiedBy && r.order == p.order
    ensures r.(status := p.status, notes := p.notes) == p
  {
    p.(status := Rejected, notes := if reason != "" then reason else p.notes)
  }

  /** The order a payment verification completes. */
  function CompletedOrder(o: Order): (r: Order)
    ensures r.status == Completed && r.(status := o.status) == o
  {
    o.(status := Completed)
  }

  /** Verifying a record twice (or verifying a rejected one) is not refused: the guard lives in the callers. */
  lemma VerifyAfterReject(p: MobileMoneyPayment, reason: string, now: Time, admin: Option<UserId>)
    ensures VerifiedRecord(RejectedRecord(p, reason), now, admin).status == Verified
    ensures RejectedRecord(VerifiedRecord(p, now, admin), reason).status == Rejected
    ensures RejectedRecord(VerifiedRecord(p, now, admin), reason).verifiedAt == Some(now)
  {
  }

  class PaymentStore {
    var transactions: map<TransactionRowId, Transaction>
    var orders: map<OrderId, Order>
    var payments: map<PaymentId, MobileMoneyPayment>
    var nextOrderId: nat
    var nextPaymentId: nat

    /** Keys are below their counters, linked orders exist, and the uniqueness constraints hold. */
    ghost predicate Valid()
      reads this
    {
      && (forall o :: o in orders ==> o < nextOrderId)
      && (forall id :: id in payments ==> id < nextPaymentId)
      && (forall id :: id in payments && payments[id].order.Some? ==> payments[id].order.value in orders)
      && UniquePaymentTransactionIds(payments)
      && UniqueTransactionIds(transactions)
      && OneToOneTransactions(orders, transactions)
    }

    constructor ()
      ensures Valid() && transactions == map[] && orders == map[] && payments == map[]
    {
      transactions := map[];
      orders := map[];
      payments := map[];
      nextOrderId := 0;
      nextPaymentId := 0;
    }

    /** `MobileMoneyPayment.verify`: the record changes as VerifiedRecord says and a linked order is completed. */
    method Verify(id: PaymentId, now: Time, admin: Option<UserId>)
      requires Valid() && id in payments
      modifies this
      ensures Valid()
      ensures payments == old(payments)[id := VerifiedRecord(old(payments)[id], now, admin)]
      ensures old(payments)[id].order.Some? ==>
                orders == old(orders)[old(payments)[id].order.value := CompletedOrder(old(orders)[old(payments)[id].order.value])]
      ensures old(payments)[id].order.None? ==> orders == old(orders)
      ensures transactions == old(transactions)
      ensures nextOrderId == old(nextOrderId) && nextPaymentId == old(nextPaymentId)
    {
      var p := payments[id];
      payments := payments[id := VerifiedRecord(p, now, admin)];
      if p.order.Some? {
        var o := p.order.value;
        orders := orders[o := CompletedOrder(orders[o])];
      }
    }

    /** `MobileMoneyPayment.reject`: only the record changes, as RejectedRecord says. */
    method Reject(id: PaymentId, reason: string)
      requires Valid() && id in payments
      modifies this
      ensures Valid()
      ensures payments == old(payments)[id := RejectedRecord(old(payments)[id], reason)]
      ensures orders == old(orders) && transactions == old(transactions)
      ensures nextOrderId == old(nextOrderId) && nextPaymentId == old(nextPaymentId)
    {
      payments := payments[id := RejectedRecord(payments[id], reason)];
    }

    /** Insert a new pending payment; the transaction id must be unused (the unique constraint). */
    method CreatePayment(user: UserId, cartCode: CartCode, provider: string, phoneNumber: string,
                         transactionId: string, amount: Cents) returns (id: PaymentId)
      requires Valid() && !TransactionIdUsed(payments, transactionId)
      modifies this
      ensures Valid()
      ensures id !in old(payments)
      ensures payments == old(payments)[id := NewPayment(user, cartCode, provider, phoneNumber, transactionId, amount)]
      ensures orders == old(orders) && transactions == old(transactions) && nextOrderId == old(nextOrderId)
    {
      id := nextPaymentId;
      payments := payments[id := NewPayment(user, cartCode, provider, phoneNumber, transactionId, amount)];
      nextPaymentId := nextPaymentId + 1;
    }

    /** Insert a new order with no lines yet. */
    method CreateOrder(user: UserId, total: Cents, status: OrderStatus) returns (id: OrderId)
      requires Valid()
      modifies this
      ensures Valid()
      ensures id !in old(orders) && orders == old(orders)[id := Order(user, None, total, status, [])]
      ensures payments == old(payments) && transactions == old(transactions) && nextPaymentId == old(nextPaymentId)
    {
      id := nextOrderId;
      orders := orders[id := Order(user, None, total, status, [])];
      nextOrderId := nextOrderId + 1;
    }

    /** Insert one order line for an existing order. */
    method AddOrderItem(id: OrderId, item: OrderItem)
      requires Valid() && id in orders
      modifies this
      ensures Valid()
      ensures orders == old(orders)[id := old(orders)[id].(items := old(orders)[id].items + [item])]
      ensures payments == old(payments) && transactions == old(transactions)
      ensures nextOrderId == old(nextOrderId) && nextPaymentId == old(nextPaymentId)
    {
      orders := orders[id := orders[id].(items := orders[id].items + [item])];
    }

    /** `payment.order = order; payment.save()`. */
    method LinkOrder(id: PaymentId, order: OrderId)
      requires Valid() && id in payments && order in orders
      modifies this
      ensures Valid()
      ensures payments == old(payments)[id := old(payments)[id].(order := Some(order))]
      ensures orders == old(orders) && transactions == old(transactions)
      ensures nextOrderId == old(nextOrderId) && nextPaymentId == old(nextPaymentId)
    {
      payments := payments[id := payments[id].(order := Some(order))];
    }

    /** A queryset `update`: replace the payments at `ids` by the given records (no `save`, no `reject`). */
    method UpdatePayments(updated: map<PaymentId, MobileMoneyPayment>)
      requires Valid() && updated.Keys == payments.Keys
      requires forall id :: id in payments ==> updated[id].transactionId == payments[id].transactionId
      requires forall id :: id in payments ==> updated[id].order == payments[id].order
      modifies this
      ensures Valid()
      ensures payments == updated
      ensures orders == old(orders) && transactions == old(transactions)
      ensures nextOrderId == old(nextOrderId) && nextPaymentId == old(nextPaymentId)
    {
      payments := updated;
    }
  }
}
