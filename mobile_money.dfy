/**
 * Submitting a mobile-money payment for manual verification. The user names
 * the cart, the provider, the phone number and the transaction id of the
 * money they sent. After validation the cart's total (at current catalog
 * prices) becomes a pending payment and a pending order carrying one order
 * line per cart line; the payment is linked to the order and the cart is
 * emptied.
 */
module MobileMoney {

  import opened Wrappers
  import opened Catalog
  import opened CartItems
  import opened Carts
  import opened Requests
  import opened Payments

  /** Every line's product is in the catalog. */
  predicate InCatalog(items: seq<CartItem>, products: Products)
  {
    forall i | 0 <= i < |items| :: items[i].product in products
  }

  /** The amount to pay: the sum over the lines of the product's catalog price times the quantity. */
  function CartCost(items: seq<CartItem>, products: Products): (r: Cents)
    requires InCatalog(items, products)
    ensures items == [] ==> r == 0
    ensures (forall i :: 0 <= i < |items| ==> items[i].quantity >= 0 && products[items[i].product].price >= 0) ==> r >= 0
  {
    if items == [] then 0
    else products[items[0].product].price * items[0].quantity + CartCost(items[1..], products)
  }

  /** The order line for a cart line: the product's name, image and current price, and the line's quantity. */
  function Snapshot(item: CartItem, products: Products): (r: OrderItem)
    requires item.product in products
    ensures r.quantity == item.quantity && r.unitPrice == products[item.product].price
    ensures r.productName == products[item.product].name && r.productImage == Some(products[item.product].image)
  {
    var p := products[item.product];
    OrderItem(p.name, Some(p.image), item.quantity, p.price)
  }

  /** One order line per cart line, in the same order. */
  function Snapshots(items: seq<CartItem>, products: Products): (r: seq<OrderItem>)
    requires InCatalog(items, products)
    ensures |r| == |items|
    ensures forall i :: 0 <= i < |items| ==> r[i] == Snapshot(items[i], products)
  {
    if items == [] then [] else [Snapshot(items[0], products)] + Snapshots(items[1..], products)
  }

  /** The order's lines add up to the amount charged for the cart. */
  lemma {:induction false} SnapshotsTotal(items: seq<CartItem>, products: Products)
    requires InCatalog(items, products)
    ensures OrderItemsTotal(Snapshots(items, products)) == CartCost(items, products)
  {
    if items != [] {
      SnapshotsTotal(items[1..], products);
      assert Snapshots(items, products)[1..] == Snapshots(items[1..], products);
    }
  }

  lemma SnapshotsAppend(items: seq<CartItem>, item: CartItem, products: Products)
    requires InCatalog(items, products) && item.product in products
    ensures InCatalog(items + [item], products)
    ensures Snapshots(items + [item], products) == Snapshots(items, products) + [Snapshot(item, products)]
  {
  }

  /** Create the order lines of `order`, one per cart line (the loop over `cart.items.all()`). */
  method CopyItems(store: PaymentStore, order: OrderId, items: seq<CartItem>, products: Products)
    requires store.Valid() && order in store.orders && store.orders[order].items == [] && InCatalog(items, products)
    modifies store
    ensures store.Valid()
    ensures store.orders == old(store.orders)[order := old(store.orders)[order].(items := Snapshots(items, products))]
    ensures store.payments == old(store.payments) && store.transactions == old(store.transactions)
    ensures store.nextOrderId == old(store.nextOrderId) && store.nextPaymentId == old(store.nextPaymentId)
  {
    ghost var orders0 := store.orders;
    ghost var o0 := store.orders[order];
    assert o0 == o0.(items := Snapshots(items[..0], products));
    for i := 0 to |items|
      invariant store.Valid()
      invariant store.orders == orders0[order := o0.(items := Snapshots(items[..i], products))]
      invariant store.payments == old(store.payments) && store.transactions == old(store.transactions)
      invariant store.nextOrderId == old(store.nextOrderId) && store.nextPaymentId == old(store.nextPaymentId)
    {
      assert items[..i + 1] == items[..i] + [items[i]];
      SnapshotsAppend(items[..i], items[i], products);
      store.AddOrderItem(order, Snapshot(items[i], products));
    }
    assert items[..|items|] == items;
  }

  /** Create the pending payment and then the pending order, both for `total`; neither is linked yet. */
  method OpenRecords(store: PaymentStore, user: UserId, cartCode: CartCode, provider: string, phoneNumber: string,
                     transactionId: string, total: Cents)
    returns (payment: PaymentId, order: OrderId)
    requires store.Valid() && !TransactionIdUsed(store.payments, transactionId)
    modifies store
    ensures store.Valid()
    ensures payment !in old(store.payments) && order !in old(store.orders)
    ensures store.payments == old(store.payments)[payment := NewPayment(user, cartCode, provider, phoneNumber, transactionId, total)]
    ensures store.orders == old(store.orders)[order := Order(user, None, total, OrderPending, [])]
    ensures store.transactions == old(store.transactions)
  {
    payment := store.CreatePayment(user, cartCode, provider, phoneNumber, transactionId, total);
    order := store.CreateOrder(user, total, OrderPending);
  }

  /** Give the new order its lines, then point the payment at the order. */
  method FillAndLink(store: PaymentStore, payment: PaymentId, order: OrderId, items: seq<CartItem>, products: Products)
    requires store.Valid() && payment in store.payments && order in store.orders && store.orders[order].items == []
    requires InCatalog(items, products)
    modifies store
    ensures store.Valid()
    ensures store.payments == old(store.payments)[payment := old(store.payments)[payment].(order := Some(order))]
    ensures store.orders == old(store.orders)[order := old(store.orders)[order].(items := Snapshots(items, products))]
    ensures store.transactions == old(store.transactions)
  {
    CopyItems(store, order, items, products);
    store.LinkOrder(payment, order);
  }

  /**
   * The records an accepted submission creates: the pending payment for the
   * cart's cost, the pending order with one line per cart line, and the link
   * from the payment to the order.
   */
  method PlaceOrder(store: PaymentStore, products: Products, user: UserId, cartCode: CartCode, items: seq<CartItem>,
                    provider: string, phoneNumber: string, transactionId: string)
    returns (payment: PaymentId, order: OrderId)
    requires store.Valid() && InCatalog(items, products) && !TransactionIdUsed(store.payments, transactionId)
    modifies store
    ensures store.Valid()
    ensures payment !in old(store.payments) && order !in old(store.orders)
    ensures store.payments == old(store.payments)[payment :=
              NewPayment(user, cartCode, provider, phoneNumber, transactionId, CartCost(items, products)).(order := Some(order))]
    ensures store.orders == old(store.orders)[order :=
              Order(user, None, CartCost(items, products), OrderPending, Snapshots(items, products))]
    ensures store.transactions == old(store.transactions)
  {
    var total := CartCost(items, products);
    ghost var payments0, orders0 := store.payments, store.orders;
    payment, order := OpenRecords(store, user, cartCode, provider, phoneNumber, transactionId, total);
    ghost var p := NewPayment(user, cartCode, provider, phoneNumber, transactionId, total);
    ghost var o := Order(user, None, total, OrderPending, []);
    FillAndLink(store, payment, order, items, products);
    UpdateTwice(payments0, payment, p, p.(order := Some(order)));
    UpdateTwice(orders0, order, o, o.(items := Snapshots(items, products)));
  }

  lemma UpdateTwice<K, V>(m: map<K, V>, k: K, a: V, b: V)
    ensures m[k := a][k := b] == m[k := b]
  {
  }

  /** Some field of the submission is missing or empty. */
  predicate MissingField(cartCode: CartCode, provider: string, phoneNumber: string, transactionId: string)
  {
    cartCode == "" || provider == "" || phoneNumber == "" || transactionId == ""
  }

  /** The user has a cart with this code. */
  predicate OwnsCart(carts: map<CartId, Cart>, code: CartCode, user: UserId)
  {
    exists id :: id in carts && IsOwnedCartWithCode(carts, id, code, user)
  }

  /**
   * `verify_mobile_money_payment`. Rejections, in this order: a missing field
   * (400), a transaction id already used by a payment (400), no cart with
   * this code owned by the user (404), an empty cart (400). A rejected
   * submission creates nothing and changes nothing. On success the new
   * payment and order are pending, carry the cart's cost, the order has one
   * line per cart line, the payment points at the order, and the cart is
   * empty.
   */
  method Submit(payStore: PaymentStore, cartStore: CartStore, products: Products, user: UserId,
                cartCode: CartCode, provider: string, phoneNumber: string, transactionId: string)
    returns (status: Status, cart: Option<CartId>, payment: Option<PaymentId>, order: Option<OrderId>)
    requires payStore.Valid() && cartStore.Valid()
    modifies payStore, cartStore
    ensures payStore.Valid() && cartStore.Valid()
    ensures status in {Ok, BadRequest, NotFound, ServerError}
    ensures status != Ok ==>
              && payStore.payments == old(payStore.payments) && payStore.orders == old(payStore.orders)
              && cartStore.carts == old(cartStore.carts) && payment.None? && order.None?
    ensures MissingField(cartCode, provider, phoneNumber, transactionId) ==> status == BadRequest
    ensures (!MissingField(cartCode, provider, phoneNumber, transactionId)
             && TransactionIdUsed(old(payStore.payments), transactionId)) ==> status == BadRequest
    ensures (!MissingField(cartCode, provider, phoneNumber, transactionId)
             && !TransactionIdUsed(old(payStore.payments), transactionId))
            ==> (status == NotFound <==> !OwnsCart(old(cartStore.carts), cartCode, user))
    ensures status == BadRequest <==>
              || MissingField(cartCode, provider, phoneNumber, transactionId)
              || TransactionIdUsed(old(payStore.payments), transactionId)
              || exists id :: IsOwnedCartWithCode(old(cartStore.carts), id, cartCode, user) && old(cartStore.carts)[id].items == []
    ensures status == Ok <==>
              && !MissingField(cartCode, provider, phoneNumber, transactionId)
              && !TransactionIdUsed(old(payStore.payments), transactionId)
              && exists id :: && IsOwnedCartWithCode(old(cartStore.carts), id, cartCode, user)
                              && old(cartStore.carts)[id].items != []
                              && InCatalog(old(cartStore.carts)[id].items, products)
    ensures status == Ok ==>
              && !MissingField(cartCode, provider, phoneNumber, transactionId)
              && !TransactionIdUsed(old(payStore.payments), transactionId)
              && cart.Some? && IsOwnedCartWithCode(old(cartStore.carts), cart.value, cartCode, user)
              && old(cartStore.carts)[cart.value].items != []
              && InCatalog(old(cartStore.carts)[cart.value].items, products)
    ensures status == Ok ==>
              var items := old(cartStore.carts)[cart.value].items;
              var total := CartCost(items, products);
              && payment.Some? && payment.value !in old(payStore.payments)
              && order.Some? && order.value !in old(payStore.orders)
              && payStore.payments == old(payStore.payments)[payment.value :=
                   NewPayment(user, cartCode, provider, phoneNumber, transactionId, total).(order := order)]
              && payStore.orders == old(payStore.orders)[order.value :=
                   Order(user, None, total, OrderPending, Snapshots(items, products))]
              && cartStore.carts == old(cartStore.carts)[cart.value := old(cartStore.carts)[cart.value].(items := [])]
    ensures payStore.transactions == old(payStore.transactions)
  {
    cart, payment, order := None, None, None;
    if MissingField(cartCode, provider, phoneNumber, transactionId) {
      return BadRequest, cart, payment, order;
    }
    if TransactionIdUsed(payStore.payments, transactionId) {
      return BadRequest, cart, payment, order;
    }
    var found := cartStore.FindOwnedByCode(cartCode, user);
    if found.None? {
      return NotFound, cart, payment, order;
    }
    var id := found.value;
    var items := cartStore.carts[id].items;
    forall other | IsOwnedCartWithCode(cartStore.carts, other, cartCode, user) ensures other == id {
      OwnedCartUnique(cartStore.carts, other, id, cartCode, user);
    }
    if items == [] {
      return BadRequest, cart, payment, order;
    }
    if !InCatalog(items, products) {
      // a line whose product row is gone: reading `item.product` raises, the handler answers 500
      return ServerError, cart, payment, order;
    }
    var pid, oid := PlaceOrder(payStore, products, user, cartCode, items, provider, phoneNumber, transactionId);
    cartStore.SaveItems(id, [], cartStore.nextItemId);
    status, cart, payment, order := Ok, Some(id), Some(pid), Some(oid);
  }

  /** A submitted order's total is the sum of its lines. */
  lemma SubmittedOrderTotal(items: seq<CartItem>, products: Products, user: UserId)
    requires InCatalog(items, products)
    ensures var o := Order(user, None, CartCost(items, products), OrderPending, Snapshots(items, products));
            o.total == OrderItemsTotal(o.items) && |o.items| == |items|
  {
    SnapshotsTotal(items, products);
  }
}
