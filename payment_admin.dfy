/**
 * The administrator's batch actions on a selection of mobile-money payments.
 * Both act only on the selected payments that are still pending: "verify"
 * calls `verify` on each of them in turn (completing their orders), "reject"
 * is one bulk update that sets status and notes and does not touch orders.
 * Each reports how many payments it changed.
 */
module PaymentAdmin {

  import opened Wrappers
  import opened Carts
  import opened Payments

  /** The note the bulk reject writes. */
  const RejectNote: string := "Rejected by admin"

  /** `queryset.filter(status='pending')`: the selected payments that are still pending. */
  function PendingSelected(payments: map<PaymentId, MobileMoneyPayment>, selected: set<PaymentId>): (r: set<PaymentId>)
    ensures r <= selected && r <= payments.Keys
    ensures forall id :: id in selected && id in payments ==> (id in r <==> payments[id].status == Pending)
  {
    set id | id in selected && id in payments && payments[id].status == Pending
  }

  /** Some payment among `ids` is linked to order `o`. */
  predicate LinkedTo(payments: map<PaymentId, MobileMoneyPayment>, ids: set<PaymentId>, o: OrderId)
  {
    exists id :: id in ids && id in payments && payments[id].order == Some(o)
  }

  /** The payments after verifying those among `ids`. */
  ghost function VerifiedOn(payments: map<PaymentId, MobileMoneyPayment>, ids: set<PaymentId>, now: Time,
                            admin: Option<UserId>): map<PaymentId, MobileMoneyPayment>
  {
    map id | id in payments :: if id in ids then VerifiedRecord(payments[id], now, admin) else payments[id]
  }

  /** The orders after verifying the payments among `ids`: each order linked to one of them is completed. */
  ghost function CompletedFor(orders: map<OrderId, Order>, payments: map<PaymentId, MobileMoneyPayment>,
                              ids: set<PaymentId>): map<OrderId, Order>
  {
    map o | o in orders :: if LinkedTo(payments, ids, o) then CompletedOrder(orders[o]) else orders[o]
  }

  /** The payments after verifying the pending selected ones at time `now` by `admin`. */
  ghost function VerifiedAll(payments: map<PaymentId, MobileMoneyPayment>, selected: set<PaymentId>, now: Time,
                             admin: Option<UserId>): (r: map<PaymentId, MobileMoneyPayment>)
    ensures r.Keys == payments.Keys
    ensures forall id :: id in payments && id !in PendingSelected(payments, selected) ==> r[id] == payments[id]
  {
    VerifiedOn(payments, PendingSelected(payments, selected), now, admin)
  }

  /** The orders after verifying the pending selected payments: those linked to one of them are completed. */
  ghost function CompletedAll(orders: map<OrderId, Order>, payments: map<PaymentId, MobileMoneyPayment>,
                              selected: set<PaymentId>): (r: map<OrderId, Order>)
    ensures r.Keys == orders.Keys
    ensures forall o :: o in orders ==> r[o].(status := orders[o].status) == orders[o]
    ensures forall o :: o in orders && !LinkedTo(payments, PendingSelected(payments, selected), o) ==> r[o] == orders[o]
  {
    CompletedFor(orders, payments, PendingSelected(payments, selected))
  }

  /** Verifying one more payment extends the verified set by that payment. */
  lemma VerifyStep(payments: map<PaymentId, MobileMoneyPayment>, done: set<PaymentId>, id: PaymentId, now: Time,
                   admin: Option<UserId>)
    requires id in payments && id !in done
    ensures VerifiedOn(payments, done, now, admin)[id := VerifiedRecord(payments[id], now, admin)]
         == VerifiedOn(payments, done + {id}, now, admin)
  {
  }

  /** Verifying one more payment completes its linked order, if any, on top of those already completed. */
  lemma CompleteStep(orders: map<OrderId, Order>, payments: map<PaymentId, MobileMoneyPayment>,
                     done: set<PaymentId>, id: PaymentId)
    requires id in payments && (payments[id].order.Some? ==> payments[id].order.value in orders)
    ensures var before := CompletedFor(orders, payments, done);
            var after := CompletedFor(orders, payments, done + {id});
            (payments[id].order.Some? ==>
               after == before[payments[id].order.value := CompletedOrder(before[payments[id].order.value])])
            && (payments[id].order.None? ==> after == before)
  {
    var before := CompletedFor(orders, payments, done);
    var after := CompletedFor(orders, payments, done + {id});
    forall o | o in orders
      ensures after[o] == if payments[id].order == Some(o) then CompletedOrder(before[o]) else before[o]
    {
      if payments[id].order == Some(o) {
        assert LinkedTo(payments, done + {id}, o);
      } else if LinkedTo(payments, done + {id}, o) {
        var w :| w in done + {id} && w in payments && payments[w].order == Some(o);
        assert LinkedTo(payments, done, o);
      }
    }
  }

  /** The payments after the bulk reject: status rejected and the fixed note, nothing else. */
  function RejectedAll(payments: map<PaymentId, MobileMoneyPayment>, selected: set<PaymentId>)
    : (r: map<PaymentId, MobileMoneyPayment>)
    ensures r.Keys == payments.Keys
    ensures forall id :: id in payments && id !in PendingSelected(payments, selected) ==> r[id] == payments[id]
  {
    map id | id in payments :: if id in PendingSelected(payments, selected)
                                then payments[id].(status := Rejected, notes := RejectNote)
                                else payments[id]
  }

  /** Verifying leaves exactly the pending selected payments verified, by `admin`, at `now`. */
  lemma VerifiedAllSpec(payments: map<PaymentId, MobileMoneyPayment>, selected: set<PaymentId>, now: Time, admin: UserId)
    ensures forall id :: id in PendingSelected(payments, selected) ==>
              var p := VerifiedAll(payments, selected, now, Some(admin))[id];
              p.status == Verified && p.verifiedAt == Some(now) && p.verifiedBy == Some(admin)
              && p.order == payments[id].order && p.notes == payments[id].notes
    ensures PendingSelected(VerifiedAll(payments, selected, now, Some(admin)), selected) == {}
  {
    var r := VerifiedAll(payments, selected, now, Some(admin));
    forall id | id in selected && id in r ensures r[id].status != Pending {
      if id in PendingSelected(payments, selected) {
        assert r[id] == VerifiedRecord(payments[id], now, Some(admin));
      }
    }
  }

  /** Rejecting leaves exactly the pending selected payments rejected with the fixed note. */
  lemma RejectedAllSpec(payments: map<PaymentId, MobileMoneyPayment>, selected: set<PaymentId>)
    ensures forall id :: id in PendingSelected(payments, selected) ==>
              var p := RejectedAll(payments, selected)[id];
              p.status == Rejected && p.notes == RejectNote
              && p.verifiedAt == payments[id].verifiedAt && p.verifiedBy == payments[id].verifiedBy
              && p.order == payments[id].order
    ensures PendingSelected(RejectedAll(payments, selected), selected) == {}
  {
    var r := RejectedAll(payments, selected);
    forall id | id in selected && id in r ensures r[id].status != Pending {
      if id in PendingSelected(payments, selected) {
        assert r[id].status == Rejected;
      }
    }
  }

  /** Running "verify" a second time on the same selection changes nothing. */
  lemma VerifyTwiceChangesNothing(payments: map<PaymentId, MobileMoneyPayment>, orders: map<OrderId, Order>,
                                  selected: set<PaymentId>, now: Time, later: Time, admin: UserId)
    ensures var once := VerifiedAll(payments, selected, now, Some(admin));
            && PendingSelected(once, selected) == {}
            && VerifiedAll(once, selected, later, Some(admin)) == once
            && CompletedAll(orders, once, selected) == orders
  {
    var once := VerifiedAll(payments, selected, now, Some(admin));
    VerifiedAllSpec(payments, selected, now, admin);
    assert VerifiedAll(once, selected, later, Some(admin)) == once;
    forall o | o in orders ensures !LinkedTo(once, PendingSelected(once, selected), o) {
    }
    assert CompletedAll(orders, once, selected) == orders;
  }

  /** Running "reject" a second time on the same selection changes nothing. */
  lemma RejectTwiceChangesNothing(payments: map<PaymentId, MobileMoneyPayment>, selected: set<PaymentId>)
    ensures var once := RejectedAll(payments, selected);
            && PendingSelected(once, selected) == {}
            && RejectedAll(once, selected) == once
  {
    var once := RejectedAll(payments, selected);
    RejectedAllSpec(payments, selected);
    assert RejectedAll(once, selected) == once;
  }

  /** Before the batch starts, no payment is verified and no order completed. */
  lemma NothingDoneYet(payments: map<PaymentId, MobileMoneyPayment>, orders: map<OrderId, Order>, now: Time,
                       admin: Option<UserId>)
    ensures VerifiedOn(payments, {}, now, admin) == payments
    ensures CompletedFor(orders, payments, {}) == orders
  {
    assert forall o :: !LinkedTo(payments, {}, o);
  }

  /** One turn of the batch: verify payment `id`, which is not yet among the verified ones. */
  method VerifyNext(store: PaymentStore, ghost payments0: map<PaymentId, MobileMoneyPayment>,
                    ghost orders0: map<OrderId, Order>, ghost done: set<PaymentId>, id: PaymentId, now: Time,
                    admin: UserId)
    requires store.Valid() && id in payments0 && id !in done
    requires store.payments == VerifiedOn(payments0, done, now, Some(admin))
    requires store.orders == CompletedFor(orders0, payments0, done)
    modifies store
    ensures store.Valid()
    ensures store.payments == VerifiedOn(payments0, done + {id}, now, Some(admin))
    ensures store.orders == CompletedFor(orders0, payments0, done + {id})
    ensures store.transactions == old(store.transactions)
  {
    assert store.payments[id] == payments0[id];
    VerifyStep(payments0, done, id, now, Some(admin));
    CompleteStep(orders0, payments0, done, id);
    store.Verify(id, now, Some(admin));
  }

  /**
   * `verify_payments`: call `verify(admin_user=request.user)` on every pending
   * selected payment and count them. The batch shares one time stamp.
   */
  method VerifyPayments(store: PaymentStore, selected: set<PaymentId>, admin: UserId, now: Time) returns (count: nat)
    requires store.Valid()
    modifies store
    ensures store.Valid()
    ensures count == |PendingSelected(old(store.payments), selected)|
    ensures store.payments == VerifiedAll(old(store.payments), selected, now, Some(admin))
    ensures store.orders == CompletedAll(old(store.orders), old(store.payments), selected)
    ensures store.transactions == old(store.transactions)
  {
    ghost var payments0 := store.payments;
    ghost var orders0 := store.orders;
    var todo := PendingSelected(store.payments, selected);
    ghost var pending := todo;
    ghost var done: set<PaymentId> := {};
    count := 0;
    NothingDoneYet(payments0, orders0, now, Some(admin));
    while todo != {}
      invariant store.Valid()
      invariant pending <= payments0.Keys && todo <= pending && done <= pending
      invariant forall x :: x in pending ==> (x in done <==> x !in todo)
      invariant count == |done|
      invariant store.transactions == old(store.transactions)
      invariant store.payments == VerifiedOn(payments0, done, now, Some(admin))
      invariant store.orders == CompletedFor(orders0, payments0, done)
      decreases |todo|
    {
      var id :| id in todo;
      VerifyNext(store, payments0, orders0, done, id, now, admin);
      todo := todo - {id};
      done := done + {id};
      count := count + 1;
    }
    assert done == pending;
  }

  /** `reject_payments`: one bulk update of the pending selected payments, counted. Orders are not touched. */
  method RejectPayments(store: PaymentStore, selected: set<PaymentId>) returns (count: nat)
    requires store.Valid()
    modifies store
    ensures store.Valid()
    ensures count == |PendingSelected(old(store.payments), selected)|
    ensures store.payments == RejectedAll(old(store.payments), selected)
    ensures store.orders == old(store.orders) && store.transactions == old(store.transactions)
  {
    count := |PendingSelected(store.payments, selected)|;
    store.UpdatePayments(RejectedAll(store.payments, selected));
  }
}
