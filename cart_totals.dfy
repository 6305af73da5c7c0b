/**
 * What the cart serializers report about a cart: each line's total, the
 * cart's total quantity and total price (sums over its lines), and its code,
 * reported under both `cart_mode` and `cart_code`.
 */
module CartTotals {

  import opened Catalog
  import opened CartItems
  import opened Carts

  /** A line's total: quantity times unit price. */
  function LineTotal(item: CartItem): (r: Cents)
    ensures item.quantity == 0 || item.unitPrice == 0 ==> r == 0
    ensures item.quantity >= 0 && item.unitPrice >= 0 ==> r >= 0
  {
    item.quantity * item.unitPrice
  }

  ghost predicate NonNegativeLines(items: seq<CartItem>)
  {
    forall i :: 0 <= i < |items| ==> items[i].quantity >= 0 && items[i].unitPrice >= 0
  }

  /** The sum of the quantities on the lines. */
  function TotalQuantity(items: seq<CartItem>): (r: int)
    ensures items == [] ==> r == 0
    ensures NonNegativeLines(items) ==> r >= 0
  {
    if items == [] then 0 else items[0].quantity + TotalQuantity(items[1..])
  }

  /** The sum of the line totals. */
  function TotalPrice(items: seq<CartItem>): (r: Cents)
    ensures items == [] ==> r == 0
    ensures NonNegativeLines(items) ==> r >= 0
  {
    if items == [] then 0 else LineTotal(items[0]) + TotalPrice(items[1..])
  }

  function Sum(xs: seq<int>): int
  {
    if xs == [] then 0 else xs[0] + Sum(xs[1..])
  }

  lemma {:induction false} TotalQuantityAppend(a: seq<CartItem>, b: seq<CartItem>)
    ensures TotalQuantity(a + b) == TotalQuantity(a) + TotalQuantity(b)
  {
    if a == [] {
      assert a + b == b;
    } else {
      assert (a + b)[1..] == a[1..] + b;
      TotalQuantityAppend(a[1..], b);
    }
  }

  /** Totals are additive: the price of two lists of lines is the sum of their prices. */
  lemma {:induction false} TotalPriceAppend(a: seq<CartItem>, b: seq<CartItem>)
    ensures TotalPrice(a + b) == TotalPrice(a) + TotalPrice(b)
  {
    if a == [] {
      assert a + b == b;
    } else {
      assert (a + b)[1..] == a[1..] + b;
      TotalPriceAppend(a[1..], b);
    }
  }

  /** Adding one line to a cart adds exactly its line total to the cart's total price. */
  lemma {:induction false} AddLineTotal(items: seq<CartItem>, x: CartItem)
    ensures TotalPrice(items + [x]) == TotalPrice(items) + LineTotal(x)
    ensures TotalQuantity(items + [x]) == TotalQuantity(items) + x.quantity
  {
    TotalPriceAppend(items, [x]);
    TotalQuantityAppend(items, [x]);
  }

  /** The totals of lines split around one line are the totals of the parts plus that line's. */
  lemma {:induction false} TotalsAround(a: seq<CartItem>, x: CartItem, b: seq<CartItem>)
    ensures TotalQuantity(a + [x] + b) == TotalQuantity(a) + x.quantity + TotalQuantity(b)
    ensures TotalPrice(a + [x] + b) == TotalPrice(a) + LineTotal(x) + TotalPrice(b)
  {
    TotalQuantityAppend(a + [x], b);
    TotalPriceAppend(a + [x], b);
    AddLineTotal(a, x);
  }

  lemma {:induction false} TotalsReplace(items: seq<CartItem>, k: nat, x: CartItem)
    requires k < |items|
    ensures TotalQuantity(items[k := x]) == TotalQuantity(items) - items[k].quantity + x.quantity
    ensures TotalPrice(items[k := x]) == TotalPrice(items) - LineTotal(items[k]) + LineTotal(x)
  {
    var a, b := items[..k], items[k + 1..];
    assert items == a + [items[k]] + b;
    assert items[k := x] == a + [x] + b;
    TotalsAround(a, items[k], b);
    TotalsAround(a, x, b);
  }

  lemma {:induction false} TotalsRemove(items: seq<CartItem>, k: nat)
    requires k < |items|
    ensures TotalQuantity(items[..k] + items[k + 1..]) == TotalQuantity(items) - items[k].quantity
    ensures TotalPrice(items[..k] + items[k + 1..]) == TotalPrice(items) - LineTotal(items[k])
  {
    var a, b := items[..k], items[k + 1..];
    assert items == a + [items[k]] + b;
    TotalsAround(a, items[k], b);
    TotalQuantityAppend(a, b);
    TotalPriceAppend(a, b);
  }

  /**
   * The increment rule raises the total quantity by exactly `qty` and the total
   * price by `qty` units at the price of the line that received them.
   */
  lemma {:induction false} IncrementTotals(items: seq<CartItem>, product: ProductId, qty: int, price: Cents, freshId: ItemId)
    ensures TotalQuantity(Increment(items, product, qty, price, freshId)) == TotalQuantity(items) + qty
    ensures TotalPrice(Increment(items, product, qty, price, freshId))
         == TotalPrice(items) + qty * (match FindProduct(items, product)
                                       case Some(k) => items[k].unitPrice
                                       case None => price)
  {
    match FindProduct(items, product)
    case Some(k) =>
      RaiseLineTotals(items, k, qty);
    case None =>
      AddLineTotal(items, CartItem(freshId, product, qty, price));
  }

  /** Raising one line by `qty` units raises the totals by `qty` units at that line's price. */
  lemma {:induction false} RaiseLineTotals(items: seq<CartItem>, k: nat, qty: int)
    requires k < |items|
    ensures var raised := items[k := items[k].(quantity := items[k].quantity + qty)];
            && TotalQuantity(raised) == TotalQuantity(items) + qty
            && TotalPrice(raised) == TotalPrice(items) + qty * items[k].unitPrice
  {
    var x := items[k].(quantity := items[k].quantity + qty);
    TotalsReplace(items, k, x);
    assert LineTotal(x) == LineTotal(items[k]) + qty * items[k].unitPrice by {
      assert (items[k].quantity + qty) * items[k].unitPrice
          == items[k].quantity * items[k].unitPrice + qty * items[k].unitPrice;
    }
  }

  /** Merging conserves the number of units: user total plus guest total. */
  lemma {:induction false} MergeConservesQuantity(user: seq<CartItem>, guest: seq<CartItem>, price: Cents, nextId: ItemId)
    ensures TotalQuantity(MergeLines(user, guest, price, nextId).0) == TotalQuantity(user) + TotalQuantity(guest)
    decreases |guest|
  {
    if guest != [] {
      var g := guest[0];
      IncrementTotals(user, g.product, g.quantity, price, nextId);
      MergeConservesQuantity(Increment(user, g.product, g.quantity, price, nextId), guest[1..], price,
                             if Holds(user, g.product) then nextId else nextId + 1);
    }
  }

  /** The serialized cart: code under both names, each line with its total, and the two sums. */
  datatype CartSummary = CartSummary(cartMode: CartCode, cartCode: CartCode, items: seq<CartItem>,
                                     lineTotals: seq<Cents>, totalQuantity: int, totalPrice: Cents)

  function LineTotals(items: seq<CartItem>): (r: seq<Cents>)
    ensures |r| == |items|
    ensures forall i :: 0 <= i < |items| ==> r[i] == items[i].quantity * items[i].unitPrice
  {
    if items == [] then [] else [LineTotal(items[0])] + LineTotals(items[1..])
  }

  lemma {:induction false} TotalPriceIsSumOfLineTotals(items: seq<CartItem>)
    ensures TotalPrice(items) == Sum(LineTotals(items))
  {
    if items != [] {
      TotalPriceIsSumOfLineTotals(items[1..]);
      assert LineTotals(items)[1..] == LineTotals(items[1..]);
    }
  }

  /**
   * CartSerializer: the cart's code is reported as both `cart_mode` and
   * `cart_code`; the total quantity is the sum of the line quantities; and the
   * reported total price is the sum of the line totals, which is also the sum
   * of the reported line totals.
   */
  function Serialize(cart: Cart): (s: CartSummary)
    ensures s.cartMode == cart.code && s.cartCode == cart.code
    ensures s.items == cart.items && |s.lineTotals| == |cart.items|
    ensures forall i :: 0 <= i < |cart.items| ==> s.lineTotals[i] == cart.items[i].quantity * cart.items[i].unitPrice
    ensures s.totalPrice == Sum(s.lineTotals)
    ensures s.totalQuantity == TotalQuantity(cart.items) && s.totalPrice == TotalPrice(cart.items)
    ensures cart.items == [] ==> s.totalQuantity == 0 && s.totalPrice == 0
  {
    TotalPriceIsSumOfLineTotals(cart.items);
    CartSummary(cart.code, cart.code, cart.items, LineTotals(cart.items), TotalQuantity(cart.items), TotalPrice(cart.items))
  }
}
