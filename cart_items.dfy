/**
 * The line items of one cart (the CartItem rows whose `cart` is that cart),
 * kept in row order, and the item-level transitions the cart views perform:
 * the several "add" rules, setting a quantity, and deleting a line.
 *
 * A line's product is its get-or-create key, so a well-formed cart holds at
 * most one line per product; item ids are primary keys below a counter.
 */
module CartItems {

  import opened Wrappers
  import opened Catalog

  type ItemId = nat

  datatype CartItem = CartItem(id: ItemId, product: ProductId, quantity: int, unitPrice: Cents)

  ghost predicate DistinctProducts(items: seq<CartItem>)
  {
    forall i, j :: 0 <= i < j < |items| ==> items[i].product != items[j].product
  }

  ghost predicate DistinctIds(items: seq<CartItem>)
  {
    forall i, j :: 0 <= i < j < |items| ==> items[i].id != items[j].id
  }

  ghost predicate IdsBelow(items: seq<CartItem>, bound: nat)
  {
    forall i :: 0 <= i < |items| ==> items[i].id < bound
  }

  /** The invariant of a cart's lines, given the next unused item id. */
  ghost predicate WellFormed(items: seq<CartItem>, bound: nat)
  {
    DistinctProducts(items) && DistinctIds(items) && IdsBelow(items, bound)
  }

  /** The first line holding `product` (the row `get_or_create(cart, product)` finds). */
  function FindProduct(items: seq<CartItem>, product: ProductId): (r: Option<nat>)
    ensures r.Some? ==> r.value < |items| && items[r.value].product == product
    ensures r.Some? ==> forall i :: 0 <= i < r.value ==> items[i].product != product
    ensures r.None? ==> forall i :: 0 <= i < |items| ==> items[i].product != product
  {
    if |items| == 0 then None
    else if items[0].product == product then Some(0)
    else match FindProduct(items[1..], product)
      case None => None
      case Some(k) => Some(k + 1)
  }

  /** The first line whose primary key is `id` (the row `CartItem.get(id=..., cart=...)` finds). */
  function FindItem(items: seq<CartItem>, id: ItemId): (r: Option<nat>)
    ensures r.Some? ==> r.value < |items| && items[r.value].id == id
    ensures r.Some? ==> forall i :: 0 <= i < r.value ==> items[i].id != id
    ensures r.None? ==> forall i :: 0 <= i < |items| ==> items[i].id != id
  {
    if |items| == 0 then None
    else if items[0].id == id then Some(0)
    else match FindItem(items[1..], id)
      case None => None
      case Some(k) => Some(k + 1)
  }

  /** Whether some line holds `product`. */
  predicate Holds(items: seq<CartItem>, product: ProductId)
  {
    exists i :: 0 <= i < |items| && items[i].product == product
  }

  /** The quantity of `product` in the cart: the sum over the lines holding it (0 when none does). */
  function QuantityOf(items: seq<CartItem>, product: ProductId): int
  {
    if |items| == 0 then 0
    else (if items[0].product == product then items[0].quantity else 0) + QuantityOf(items[1..], product)
  }

  lemma {:induction false} QuantityOfAppend(a: seq<CartItem>, b: seq<CartItem>, product: ProductId)
    ensures QuantityOf(a + b, product) == QuantityOf(a, product) + QuantityOf(b, product)
  {
    if |a| > 0 {
      assert (a + b)[1..] == a[1..] + b;
      QuantityOfAppend(a[1..], b, product);
    } else {
      assert a + b == b;
    }
  }

  lemma {:induction false} QuantityOfMissing(items: seq<CartItem>, product: ProductId)
    requires !Holds(items, product)
    ensures QuantityOf(items, product) == 0
  {
    if |items| > 0 {
      assert !Holds(items[1..], product) by {
        forall i | 0 <= i < |items[1..]| ensures items[1..][i].product != product {
          assert items[1..][i] == items[i + 1];
        }
      }
      QuantityOfMissing(items[1..], product);
    }
  }

  /** Replacing one line changes the quantity of a product by exactly that line's difference. */
  lemma QuantityOfReplace(items: seq<CartItem>, k: nat, x: CartItem, product: ProductId)
    requires k < |items|
    ensures QuantityOf(items[k := x], product)
         == QuantityOf(items, product)
          - (if items[k].product == product then items[k].quantity else 0)
          + (if x.product == product then x.quantity else 0)
  {
    assert items == items[..k] + [items[k]] + items[k + 1..];
    assert items[k := x] == items[..k] + [x] + items[k + 1..];
    QuantityOfAppend(items[..k] + [items[k]], items[k + 1..], product);
    QuantityOfAppend(items[..k], [items[k]], product);
    QuantityOfAppend(items[..k] + [x], items[k + 1..], product);
    QuantityOfAppend(items[..k], [x], product);
  }

  /** Removing line k takes away exactly that line's quantity. */
  lemma QuantityOfRemove(items: seq<CartItem>, k: nat, product: ProductId)
    requires k < |items|
    ensures QuantityOf(items[..k] + items[k + 1..], product)
         == QuantityOf(items, product) - (if items[k].product == product then items[k].quantity else 0)
  {
    assert items == items[..k] + [items[k]] + items[k + 1..];
    QuantityOfAppend(items[..k] + [items[k]], items[k + 1..], product);
    QuantityOfAppend(items[..k], [items[k]], product);
    QuantityOfAppend(items[..k], items[k + 1..], product);
  }

  /** In a well-formed cart the quantity of a product is the quantity on its one line. */
  lemma QuantityOfLine(items: seq<CartItem>, k: nat)
    requires k < |items| && DistinctProducts(items)
    ensures QuantityOf(items, items[k].product) == items[k].quantity
  {
    var p := items[k].product;
    assert items == items[..k] + [items[k]] + items[k + 1..];
    QuantityOfAppend(items[..k] + [items[k]], items[k + 1..], p);
    QuantityOfAppend(items[..k], [items[k]], p);
    assert !Holds(items[..k], p) by {
      forall i | 0 <= i < |items[..k]| ensures items[..k][i].product != p {
        assert items[..k][i] == items[i];
      }
    }
    var suffix := items[k + 1..];
    assert !Holds(suffix, p) by {
      forall i | 0 <= i < |suffix| ensures suffix[i].product != p {
        assert suffix[i] == items[k + 1 + i];
      }
    }
    QuantityOfMissing(items[..k], p);
    QuantityOfMissing(items[k + 1..], p);
  }

  /**
   * Overwriting line k with a line for the same product and the same id keeps
   * the cart well formed.
   */
  lemma ReplaceKeepsWellFormed(items: seq<CartItem>, bound: nat, k: nat, x: CartItem)
    requires WellFormed(items, bound) && k < |items|
    requires x.product == items[k].product && x.id == items[k].id
    ensures WellFormed(items[k := x], bound)
  {
  }

  /** Appending a line for a new product under a fresh id keeps the cart well formed. */
  lemma AppendKeepsWellFormed(items: seq<CartItem>, bound: nat, x: CartItem)
    requires WellFormed(items, bound) && !Holds(items, x.product) && x.id >= bound
    ensures WellFormed(items + [x], x.id + 1)
  {
  }

  /** Deleting a line keeps the cart well formed. */
  lemma RemoveKeepsWellFormed(items: seq<CartItem>, bound: nat, k: nat)
    requires WellFormed(items, bound) && k < |items|
    ensures WellFormed(items[..k] + items[k + 1..], bound)
  {
    var r := items[..k] + items[k + 1..];
    forall i | 0 <= i < |r| ensures r[i] == items[if i < k then i else i + 1] {
    }
  }

  /**
   * The common get-or-create-then-increment rule: the line for `product` grows
   * by `qty`; a product not yet in the cart gets a new line with exactly `qty`
   * units at `price` under the fresh id `freshId`.
   */
  function Increment(items: seq<CartItem>, product: ProductId, qty: int, price: Cents, freshId: ItemId): (r: seq<CartItem>)
    ensures QuantityOf(r, product) == QuantityOf(items, product) + qty
    ensures forall q :: q != product ==> QuantityOf(r, q) == QuantityOf(items, q)
    ensures |r| == if Holds(items, product) then |items| else |items| + 1
    ensures forall i :: 0 <= i < |items| && items[i].product != product ==> r[i] == items[i]
    ensures !Holds(items, product) ==> r[|items|] == CartItem(freshId, product, qty, price)
    ensures Holds(r, product)
  {
    match FindProduct(items, product)
    case Some(k) =>
      var x := items[k].(quantity := items[k].quantity + qty);
      forall q ensures QuantityOf(items[k := x], q) == QuantityOf(items, q) + (if q == product then qty else 0) {
        QuantityOfReplace(items, k, x, q);
      }
      assert items[k := x][k].product == product;
      items[k := x]
    case None =>
      var x := CartItem(freshId, product, qty, price);
      forall q ensures QuantityOf(items + [x], q) == QuantityOf(items, q) + (if q == product then qty else 0) {
        QuantityOfAppend(items, [x], q);
      }
      items + [x]
  }

  lemma IncrementKeepsWellFormed(items: seq<CartItem>, bound: nat, product: ProductId, qty: int, price: Cents)
    requires WellFormed(items, bound)
    ensures Holds(items, product) ==> WellFormed(Increment(items, product, qty, price, bound), bound)
    ensures !Holds(items, product) ==> WellFormed(Increment(items, product, qty, price, bound), bound + 1)
  {
    match FindProduct(items, product)
    case Some(k) =>
      ReplaceKeepsWellFormed(items, bound, k, items[k].(quantity := items[k].quantity + qty));
    case None =>
      AppendKeepsWellFormed(items, bound, CartItem(bound, product, qty, price));
  }

  /**
   * The rule of the frontend "add item" endpoint: a new line starts at 0 units
   * and the current product price; then the line's price is refreshed to the
   * current price and its quantity grows by `qty`.
   */
  function AddPriced(items: seq<CartItem>, product: ProductId, qty: int, price: Cents, freshId: ItemId): (r: seq<CartItem>)
    ensures QuantityOf(r, product) == QuantityOf(items, product) + qty
    ensures forall q :: q != product ==> QuantityOf(r, q) == QuantityOf(items, q)
    ensures FindProduct(r, product).Some? && r[FindProduct(r, product).value].unitPrice == price
    ensures |r| == if Holds(items, product) then |items| else |items| + 1
    ensures forall i :: 0 <= i < |items| && items[i].product != product ==> r[i] == items[i]
    ensures Holds(r, product)
  {
    match FindProduct(items, product)
    case Some(k) =>
      var x := items[k].(quantity := items[k].quantity + qty, unitPrice := price);
      forall q ensures QuantityOf(items[k := x], q) == QuantityOf(items, q) + (if q == product then qty else 0) {
        QuantityOfReplace(items, k, x, q);
      }
      FirstStaysFirst(items, k, x);
      items[k := x]
    case None =>
      var x := CartItem(freshId, product, 0 + qty, price);
      forall q ensures QuantityOf(items + [x], q) == QuantityOf(items, q) + (if q == product then qty else 0) {
        QuantityOfAppend(items, [x], q);
      }
      assert FindProduct(items + [x], product) == Some(|items|) by {
        FindAfterAppend(items, x);
      }
      items + [x]
  }

  lemma AddPricedKeepsWellFormed(items: seq<CartItem>, bound: nat, product: ProductId, qty: int, price: Cents)
    requires WellFormed(items, bound)
    ensures Holds(items, product) ==> WellFormed(AddPriced(items, product, qty, price, bound), bound)
    ensures !Holds(items, product) ==> WellFormed(AddPriced(items, product, qty, price, bound), bound + 1)
  {
    match FindProduct(items, product)
    case Some(k) =>
      ReplaceKeepsWellFormed(items, bound, k, items[k].(quantity := items[k].quantity + qty, unitPrice := price));
    case None =>
      AppendKeepsWellFormed(items, bound, CartItem(bound, product, 0 + qty, price));
  }

  /**
   * The rule of the original "add item" endpoint: get or create the line for
   * `product` and set its quantity to exactly 1, whatever it was.
   */
  function ResetToOne(items: seq<CartItem>, product: ProductId, price: Cents, freshId: ItemId): (r: seq<CartItem>)
    requires DistinctProducts(items)
    ensures QuantityOf(r, product) == 1
    ensures forall q :: q != product ==> QuantityOf(r, q) == QuantityOf(items, q)
    ensures |r| == if Holds(items, product) then |items| else |items| + 1
    ensures forall i :: 0 <= i < |items| && items[i].product != product ==> r[i] == items[i]
    ensures Holds(r, product)
  {
    match FindProduct(items, product)
    case Some(k) =>
      var x := items[k].(quantity := 1);
      QuantityOfLine(items, k);
      forall q ensures q != product ==> QuantityOf(items[k := x], q) == QuantityOf(items, q) {
        QuantityOfReplace(items, k, x, q);
      }
      QuantityOfReplace(items, k, x, product);
      assert items[k := x][k].product == product;
      items[k := x]
    case None =>
      var x := CartItem(freshId, product, 1, price);
      forall q ensures QuantityOf(items + [x], q) == QuantityOf(items, q) + (if q == product then 1 else 0) {
        QuantityOfAppend(items, [x], q);
      }
      QuantityOfMissing(items, product);
      assert (items + [x])[|items|].product == product;
      items + [x]
  }

  lemma ResetToOneKeepsWellFormed(items: seq<CartItem>, bound: nat, product: ProductId, price: Cents)
    requires WellFormed(items, bound)
    ensures Holds(items, product) ==> WellFormed(ResetToOne(items, product, price, bound), bound)
    ensures !Holds(items, product) ==> WellFormed(ResetToOne(items, product, price, bound), bound + 1)
  {
    match FindProduct(items, product)
    case Some(k) =>
      ReplaceKeepsWellFormed(items, bound, k, items[k].(quantity := 1));
    case None =>
      AppendKeepsWellFormed(items, bound, CartItem(bound, product, 1, price));
  }

  /** The first line holding a product is found by FindProduct. */
  lemma {:induction false} FindProductAt(items: seq<CartItem>, k: nat, product: ProductId)
    requires k < |items| && items[k].product == product
    requires forall i :: 0 <= i < k ==> items[i].product != product
    ensures FindProduct(items, product) == Some(k)
  {
    if k > 0 {
      forall i | 0 <= i < k - 1 ensures items[1..][i].product != product {
        assert items[1..][i] == items[i + 1];
      }
      FindProductAt(items[1..], k - 1, product);
    }
  }

  lemma FirstStaysFirst(items: seq<CartItem>, k: nat, x: CartItem)
    requires FindProduct(items, x.product) == Some(k)
    ensures FindProduct(items[k := x], x.product) == Some(k)
  {
    FindProductAt(items[k := x], k, x.product);
  }

  lemma FindAfterAppend(items: seq<CartItem>, x: CartItem)
    requires !Holds(items, x.product)
    ensures FindProduct(items + [x], x.product) == Some(|items|)
  {
    FindProductAt(items + [x], |items|, x.product);
  }

  /** Set line k to exactly `q` units (the caller has checked that `q` is positive). */
  function SetQuantity(items: seq<CartItem>, k: nat, q: int): (r: seq<CartItem>)
    requires k < |items| && DistinctProducts(items)
    ensures QuantityOf(r, items[k].product) == q
    ensures forall p :: p != items[k].product ==> QuantityOf(r, p) == QuantityOf(items, p)
    ensures |r| == |items| && r[k].id == items[k].id && r[k].unitPrice == items[k].unitPrice
    ensures forall i :: 0 <= i < |items| && i != k ==> r[i] == items[i]
  {
    var x := items[k].(quantity := q);
    QuantityOfLine(items, k);
    QuantityOfReplace(items, k, x, items[k].product);
    forall p ensures p != items[k].product ==> QuantityOf(items[k := x], p) == QuantityOf(items, p) {
      QuantityOfReplace(items, k, x, p);
    }
    items[k := x]
  }

  /** Delete line k: its product leaves the cart, every other line stays, in order. */
  function RemoveLine(items: seq<CartItem>, k: nat): (r: seq<CartItem>)
    requires k < |items| && DistinctProducts(items)
    ensures !Holds(r, items[k].product) && QuantityOf(r, items[k].product) == 0
    ensures forall p :: p != items[k].product ==> QuantityOf(r, p) == QuantityOf(items, p)
    ensures |r| == |items| - 1
    ensures forall i :: 0 <= i < |r| ==> r[i] == items[if i < k then i else i + 1]
  {
    var r := items[..k] + items[k + 1..];
    assert forall i :: 0 <= i < |r| ==> r[i] == items[if i < k then i else i + 1];
    forall p ensures QuantityOf(r, p) == QuantityOf(items, p) - (if items[k].product == p then items[k].quantity else 0) {
      QuantityOfRemove(items, k, p);
    }
    QuantityOfLine(items, k);
    r
  }

  /** The products on some line. */
  function ProductsOf(items: seq<CartItem>): set<ProductId>
  {
    set i | 0 <= i < |items| :: items[i].product
  }

  /**
   * Merging a guest cart into a user cart, guest line by guest line, as the
   * merge view's loop does: each guest line is added to the user lines with the
   * increment rule; a product the user cart lacks gets a new line under the
   * next fresh id, with `price` as its unit price (the guest line's price is
   * not copied). The result is the merged lines and the next unused id.
   */
  function MergeLines(user: seq<CartItem>, guest: seq<CartItem>, price: Cents, nextId: ItemId): (r: (seq<CartItem>, ItemId))
    decreases |guest|
  {
    if |guest| == 0 then (user, nextId)
    else
      var g := guest[0];
      MergeLines(Increment(user, g.product, g.quantity, price, nextId), guest[1..], price,
                 if Holds(user, g.product) then nextId else nextId + 1)
  }

  /** A merge keeps the lines well formed and only moves the next id forward. */
  lemma {:induction false} MergeLinesWellFormed(user: seq<CartItem>, guest: seq<CartItem>, price: Cents, nextId: ItemId)
    requires WellFormed(user, nextId)
    ensures WellFormed(MergeLines(user, guest, price, nextId).0, MergeLines(user, guest, price, nextId).1)
    ensures MergeLines(user, guest, price, nextId).1 >= nextId
    decreases |guest|
  {
    if |guest| > 0 {
      var g := guest[0];
      IncrementKeepsWellFormed(user, nextId, g.product, g.quantity, price);
      MergeLinesWellFormed(Increment(user, g.product, g.quantity, price, nextId), guest[1..], price,
                           if Holds(user, g.product) then nextId else nextId + 1);
    }
  }

  /** After a merge every product's quantity is the user quantity plus the guest quantity. */
  lemma {:induction false} MergeLinesQuantity(user: seq<CartItem>, guest: seq<CartItem>, price: Cents, nextId: ItemId, p: ProductId)
    ensures QuantityOf(MergeLines(user, guest, price, nextId).0, p) == QuantityOf(user, p) + QuantityOf(guest, p)
    decreases |guest|
  {
    if |guest| > 0 {
      var g := guest[0];
      MergeLinesQuantity(Increment(user, g.product, g.quantity, price, nextId), guest[1..], price,
                         if Holds(user, g.product) then nextId else nextId + 1, p);
      assert guest == [g] + guest[1..];
      QuantityOfAppend([g], guest[1..], p);
    }
  }

  /** A merge never drops a line, and lines of products the guest cart lacks stay put. */
  lemma {:induction false} MergeLinesKeeps(user: seq<CartItem>, guest: seq<CartItem>, price: Cents, nextId: ItemId)
    ensures |MergeLines(user, guest, price, nextId).0| >= |user|
    ensures forall i :: 0 <= i < |user| && user[i].product !in ProductsOf(guest) ==>
              MergeLines(user, guest, price, nextId).0[i] == user[i]
    decreases |guest|
  {
    if |guest| > 0 {
      var g := guest[0];
      var u1 := Increment(user, g.product, g.quantity, price, nextId);
      MergeLinesKeeps(u1, guest[1..], price, if Holds(user, g.product) then nextId else nextId + 1);
      forall i | 0 <= i < |user| && user[i].product !in ProductsOf(guest)
        ensures MergeLines(user, guest, price, nextId).0[i] == user[i]
      {
        assert g.product in ProductsOf(guest);
        assert u1[i] == user[i];
        assert user[i].product !in ProductsOf(guest[1..]);
      }
    }
  }

  /**
   * After a merge every product's quantity is the user quantity plus the
   * guest quantity; lines of products the guest cart lacks are untouched and
   * stay in place; the lines stay well formed and ids only grow.
   */
  lemma MergeLinesSpec(user: seq<CartItem>, guest: seq<CartItem>, price: Cents, nextId: ItemId)
    requires WellFormed(user, nextId)
    ensures var (r, next) := MergeLines(user, guest, price, nextId);
      && WellFormed(r, next) && next >= nextId
      && (forall p :: QuantityOf(r, p) == QuantityOf(user, p) + QuantityOf(guest, p))
      && |r| >= |user|
      && (forall i :: 0 <= i < |user| && user[i].product !in ProductsOf(guest) ==> r[i] == user[i])
  {
    MergeLinesWellFormed(user, guest, price, nextId);
    MergeLinesKeeps(user, guest, price, nextId);
    forall p ensures QuantityOf(MergeLines(user, guest, price, nextId).0, p) == QuantityOf(user, p) + QuantityOf(guest, p) {
      MergeLinesQuantity(user, guest, price, nextId, p);
    }
  }
}
