/**
 * The cart app's views: creating a cart (a fresh random code for a guest, the
 * open cart of a signed-in user), adding a product, changing or deleting a
 * line by its id, merging a guest cart into the user's cart, and the three
 * endpoints the frontend calls (add, update, delete) that name the cart by
 * `cart_mode` or `cart_code`.
 *
 * Each view is a method over the cart store. Random codes are parameters;
 * `defaultPrice` is the unit price a CartItem row gets when a view creates it
 * without naming one (the CartItem model's default).
 */
module CartViews {

  import opened Wrappers
  import opened Catalog
  import opened CartItems
  import opened Carts
  import opened CartTotals
  import opened Requests

  /**
   * The guest branch of cart creation: draw random codes until one is not the
   * code of any cart. The draws are the values the random generator yields;
   * the loop ends because one of them is unused.
   */
  method PickFreshCode(store: CartStore, draws: seq<CartCode>) returns (code: CartCode, tries: nat)
    requires exists i :: 0 <= i < |draws| && !CodeInUse(store.carts, draws[i])
    ensures tries < |draws| && code == draws[tries]
    ensures !CodeInUse(store.carts, code)
    ensures forall j :: 0 <= j < tries ==> CodeInUse(store.carts, draws[j])
  {
    tries := 0;
    while CodeInUse(store.carts, draws[tries])
      invariant tries < |draws|
      invariant forall j :: 0 <= j < tries ==> CodeInUse(store.carts, draws[j])
      invariant exists i :: tries <= i < |draws| && !CodeInUse(store.carts, draws[i])
      decreases |draws| - tries
    {
      tries := tries + 1;
    }
    code := draws[tries];
  }

  /**
   * CreateCartView.post. A signed-in user gets their open cart, created with
   * the code `userDraw` when they have none (a code already taken makes the
   * insert fail). A guest gets a new cart under the first unused code among
   * `draws`.
   */
  method CreateCart(store: CartStore, user: Option<UserId>, draws: seq<CartCode>, userDraw: CartCode)
    returns (status: Status, cart: CartId)
    requires store.Valid()
    requires |userDraw| == 11 && forall i :: 0 <= i < |draws| ==> |draws[i]| == 11
    requires user.None? ==> exists i :: 0 <= i < |draws| && !CodeInUse(store.carts, draws[i])
    modifies store
    ensures store.Valid()
    ensures user.Some? && status == Ok ==> IsOpenCartOf(store.carts, cart, user.value)
    ensures user.Some? && cart in old(store.carts) && status == Ok ==> store.carts == old(store.carts)
    ensures user.Some? && status == Ok && cart !in old(store.carts) ==>
              (forall id :: id in old(store.carts) ==> !IsOpenCartOf(old(store.carts), id, user.value))
              && store.carts == old(store.carts)[cart := Cart(userDraw, user, false, [])]
    ensures user.Some? ==> status == Ok || status == ServerError
    ensures user.Some? && (exists id :: IsOpenCartOf(old(store.carts), id, user.value)) ==>
              status == Ok && store.carts == old(store.carts)
    ensures status == ServerError <==>
              && user.Some? && (forall id :: id in old(store.carts) ==> !IsOpenCartOf(old(store.carts), id, user.value))
              && CodeInUse(old(store.carts), userDraw)
    ensures status == ServerError ==> store.carts == old(store.carts)
    ensures user.None? ==> status == Created && cart !in old(store.carts) && cart in store.carts
    ensures user.None? ==> !CodeInUse(old(store.carts), store.carts[cart].code) && |store.carts[cart].code| == 11
    ensures user.None? ==> store.carts == old(store.carts)[cart := Cart(store.carts[cart].code, None, false, [])]
  {
    if user.Some? {
      var found := store.FindOpenCartOf(user.value);
      if found.Some? {
        return Ok, found.value;
      }
      if CodeInUse(store.carts, userDraw) {
        return ServerError, 0;
      }
      cart := store.CreateCart(userDraw, user);
      return Ok, cart;
    }
    var code, tries := PickFreshCode(store, draws);
    cart := store.CreateCart(code, None);
    status := Created;
  }

  /**
   * UserCartView.get: get or create the user's open cart (created with code
   * `draw1`), then give it the code `draw2` if it has none.
   */
  method UserCart(store: CartStore, user: UserId, draw1: CartCode, draw2: CartCode)
    returns (status: Status, cart: CartId)
    requires store.Valid() && |draw1| == 11 && |draw2| == 11
    modifies store
    ensures store.Valid()
    ensures status == Ok || status == ServerError
    ensures status == ServerError ==> store.carts == old(store.carts)
    ensures status == ServerError <==>
              || ((forall id :: id in old(store.carts) ==> !IsOpenCartOf(old(store.carts), id, user))
                  && CodeInUse(old(store.carts), draw1))
              || (IsOpenCartOf(old(store.carts), cart, user) && old(store.carts)[cart].code == ""
                  && CodeInUse(old(store.carts), draw2))
    ensures status == Ok ==> IsOpenCartOf(store.carts, cart, user) && store.carts[cart].code != ""
    ensures (exists id :: IsOpenCartOf(old(store.carts), id, user)) ==> IsOpenCartOf(old(store.carts), cart, user)
    ensures status == Ok ==> (cart in old(store.carts) <==> exists id :: IsOpenCartOf(old(store.carts), id, user))
    ensures status == Ok ==> forall id :: id in old(store.carts) && id != cart ==> id in store.carts && store.carts[id] == old(store.carts)[id]
    ensures status == Ok ==> store.carts.Keys == old(store.carts).Keys + {cart}
    ensures status == Ok && cart in old(store.carts) ==>
              store.carts[cart].items == old(store.carts)[cart].items
              && (old(store.carts)[cart].code != "" ==> store.carts[cart] == old(store.carts)[cart])
    ensures status == Ok && cart !in old(store.carts) ==>
              store.carts == old(store.carts)[cart := Cart(draw1, Some(user), false, [])]
    ensures status == Ok && cart in old(store.carts) && old(store.carts)[cart].code == "" ==>
              store.carts == old(store.carts)[cart := old(store.carts)[cart].(code := draw2)]
  {
    var found := store.FindOpenCartOf(user);
    if found.Some? {
      cart := found.value;
    } else {
      if CodeInUse(store.carts, draw1) {
        return ServerError, 0;
      }
      cart := store.CreateCart(draw1, Some(user));
    }
    if store.carts[cart].code == "" {
      if CodeInUse(store.carts, draw2) {
        return ServerError, cart;
      }
      store.SetCode(cart, draw2);
    }
    status := Ok;
  }

  /**
   * AddToCartView.post: the cart and the product must exist; the quantity
   * (default 1) must be at least 1; then the product's line grows by the
   * quantity, or a new line is created with exactly that quantity.
   */
  method AddToCart(store: CartStore, products: Products, code: CartCode, product: ProductId,
                   quantity: IntParam, defaultPrice: Cents)
    returns (status: Status, cart: CartId)
    requires store.Valid()
    modifies store
    ensures store.Valid()
    ensures !CodeInUse(old(store.carts), code) ==> status == NotFound
    ensures CodeInUse(old(store.carts), code) && product !in products ==> status == NotFound
    ensures CodeInUse(old(store.carts), code) && product in products && QuantityOrOne(quantity).None? ==> status == ServerError
    ensures CodeInUse(old(store.carts), code) && product in products && quantity.Given? && quantity.n < 1 ==> status == BadRequest
    ensures status == Ok <==> CodeInUse(old(store.carts), code) && product in products
                              && QuantityOrOne(quantity).Some? && QuantityOrOne(quantity).value >= 1
    ensures status != Ok ==> store.carts == old(store.carts)
    ensures status == Ok ==> cart in old(store.carts) && old(store.carts)[cart].code == code
    ensures status == Ok ==>
      var q := QuantityOrOne(quantity).value;
      var before := old(store.carts)[cart].items;
      && store.carts == old(store.carts)[cart := old(store.carts)[cart].(items := Increment(before, product, q, defaultPrice, old(store.nextItemId)))]
      && QuantityOf(store.carts[cart].items, product) == QuantityOf(before, product) + q
      && (forall p :: p != product ==> QuantityOf(store.carts[cart].items, p) == QuantityOf(before, p))
  {
    var found := store.FindByCode(code);
    if found.None? {
      return NotFound, 0;
    }
    cart := found.value;
    if product !in products {
      return NotFound, cart;
    }
    var q := QuantityOrOne(quantity);
    if q.None? {
      return ServerError, cart;
    }
    if q.value < 1 {
      return BadRequest, cart;
    }
    var items := store.carts[cart].items;
    var next := store.nextItemId;
    IncrementKeepsWellFormed(items, next, product, q.value, defaultPrice);
    var after := Increment(items, product, q.value, defaultPrice, next);
    store.SaveItems(cart, after, if Holds(items, product) then next else next + 1);
    status := Ok;
  }

  /**
   * The quantity a PATCH asks for: a quantity that is present and not `null`
   * wins over an action (and must be an integer); otherwise `increment` or
   * `decrement` moves the current quantity by one; `None` when neither is usable.
   */
  function PatchQuantity(current: int, quantity: IntParam, action: Option<string>): (r: Option<int>)
    ensures quantity.Given? ==> r == Some(quantity.n)
    ensures quantity.NotAnInt? ==> r.None?
    ensures quantity.Absent? || quantity.Null? ==>
              && (r.Some? <==> action == Some("increment") || action == Some("decrement"))
              && (action == Some("increment") ==> r == Some(current + 1))
              && (action == Some("decrement") ==> r == Some(current - 1))
  {
    match quantity
    case Given(q) => Some(q)
    case NotAnInt => None
    case _ =>
      if action == Some("increment") then Some(current + 1)
      else if action == Some("decrement") then Some(current - 1)
      else None
  }

  /** The cart holding `code` has a line whose id is `itemId` (both lookups of the line views succeed). */
  predicate HasLine(carts: map<CartId, Cart>, code: CartCode, itemId: ItemId)
  {
    exists id :: id in carts && carts[id].code == code && FindItem(carts[id].items, itemId).Some?
  }

  /** A line set to a quantity of 0 or less is deleted; otherwise its quantity is set. */
  function ApplyQuantity(items: seq<CartItem>, k: nat, q: int): (r: seq<CartItem>)
    requires k < |items| && DistinctProducts(items)
    ensures q <= 0 ==> !Holds(r, items[k].product)
    ensures q > 0 ==> QuantityOf(r, items[k].product) == q
    ensures forall p :: p != items[k].product ==> QuantityOf(r, p) == QuantityOf(items, p)
  {
    if q <= 0 then RemoveLine(items, k) else SetQuantity(items, k, q)
  }

  lemma ApplyQuantityKeepsWellFormed(items: seq<CartItem>, bound: nat, k: nat, q: int)
    requires WellFormed(items, bound) && k < |items|
    ensures WellFormed(ApplyQuantity(items, k, q), bound)
  {
    if q <= 0 {
      RemoveKeepsWellFormed(items, bound, k);
    } else {
      ReplaceKeepsWellFormed(items, bound, k, items[k].(quantity := q));
    }
  }

  /**
   * CartItemDetailView.patch: after the cart and the line are found, a given
   * quantity sets the line (0 or less deletes it); otherwise the action
   * `increment` or `decrement` moves it by one (deleting it at 0 or less);
   * a quantity that is not an integer, or neither field, is a bad request
   * that changes nothing.
   */
  method PatchItem(store: CartStore, code: CartCode, itemId: ItemId, quantity: IntParam, action: Option<string>)
    returns (status: Status, cart: CartId)
    requires store.Valid()
    modifies store
    ensures store.Valid()
    ensures status == Ok || status == BadRequest || status == NotFound
    ensures !CodeInUse(old(store.carts), code) ==> status == NotFound
    ensures code != "" ==> (status == NotFound <==> !HasLine(old(store.carts), code, itemId))
    ensures status != NotFound ==> cart in old(store.carts) && old(store.carts)[cart].code == code
                                   && FindItem(old(store.carts)[cart].items, itemId).Some?
    ensures status != Ok ==> store.carts == old(store.carts)
    ensures status != NotFound ==>
      var before := old(store.carts)[cart].items;
      var k := FindItem(before, itemId).value;
      var target := PatchQuantity(before[k].quantity, quantity, action);
      && (status == Ok <==> target.Some?)
      && (status == Ok ==> store.carts == old(store.carts)[cart := old(store.carts)[cart].(items := ApplyQuantity(before, k, target.value))])
      && (status == Ok && target.value <= 0 ==> !Holds(store.carts[cart].items, before[k].product))
      && (status == Ok && target.value > 0 ==> QuantityOf(store.carts[cart].items, before[k].product) == target.value)
      && (status == Ok ==> forall p :: p != before[k].product ==> QuantityOf(store.carts[cart].items, p) == QuantityOf(before, p))
  {
    var found := store.FindByCode(code);
    if found.None? {
      return NotFound, 0;
    }
    cart := found.value;
    var items := store.carts[cart].items;
    var line := FindItem(items, itemId);
    if line.None? {
      return NotFound, cart;
    }
    var k := line.value;
    var target := PatchQuantity(items[k].quantity, quantity, action);
    if target.None? {
      return BadRequest, cart;
    }
    ApplyQuantityKeepsWellFormed(items, store.nextItemId, k, target.value);
    store.SaveItems(cart, ApplyQuantity(items, k, target.value), store.nextItemId);
    status := Ok;
  }

  /** CartItemDetailView.delete: after the cart and the line are found, the line is deleted. */
  method DeleteItem(store: CartStore, code: CartCode, itemId: ItemId) returns (status: Status, cart: CartId)
    requires store.Valid()
    modifies store
    ensures store.Valid()
    ensures status == Ok || status == NotFound
    ensures !CodeInUse(old(store.carts), code) ==> status == NotFound
    ensures code != "" ==> (status == NotFound <==> !HasLine(old(store.carts), code, itemId))
    ensures status == NotFound ==> store.carts == old(store.carts)
    ensures status == Ok ==> cart in old(store.carts) && old(store.carts)[cart].code == code
    ensures status == Ok ==>
      var before := old(store.carts)[cart].items;
      && FindItem(before, itemId).Some?
      && store.carts == old(store.carts)[cart := old(store.carts)[cart].(items := RemoveLine(before, FindItem(before, itemId).value))]
      && FindItem(store.carts[cart].items, itemId).None?
  {
    var found := store.FindByCode(code);
    if found.None? {
      return NotFound, 0;
    }
    cart := found.value;
    var items := store.carts[cart].items;
    var line := FindItem(items, itemId);
    if line.None? {
      return NotFound, cart;
    }
    RemoveKeepsWellFormed(items, store.nextItemId, line.value);
    store.SaveItems(cart, RemoveLine(items, line.value), store.nextItemId);
    status := Ok;
  }

  /**
   * The cart table after merging the guest cart into the user cart: the user
   * cart's lines are the merged lines, and the guest cart is gone.
   */
  ghost function MergedCarts(carts: map<CartId, Cart>, guest: CartId, userCart: CartId, price: Cents, nextId: ItemId)
    : map<CartId, Cart>
    requires guest in carts && userCart in carts
  {
    (carts[userCart := carts[userCart].(items := MergeLines(carts[userCart].items, carts[guest].items, price, nextId).0)])
      - {guest}
  }

  /**
   * What a merge does to the table: the guest cart is deleted and every other
   * cart except the user cart is untouched; the user cart keeps its code,
   * owner and paid flag; every product's quantity in it is the user quantity
   * plus the guest quantity; the total number of units is conserved; and the
   * lines of products the guest cart lacks stay where they were.
   */
  lemma MergedCartsSpec(carts: map<CartId, Cart>, guest: CartId, userCart: CartId, price: Cents, nextId: ItemId)
    requires guest in carts && userCart in carts && guest != userCart && WellFormed(carts[userCart].items, nextId)
    ensures var after := MergedCarts(carts, guest, userCart, price, nextId);
            && after.Keys == carts.Keys - {guest}
            && (forall id :: id in carts && id != guest && id != userCart ==> after[id] == carts[id])
            && after[userCart].(items := carts[userCart].items) == carts[userCart]
    ensures var before := carts[userCart].items;
            var guestItems := carts[guest].items;
            var after := MergedCarts(carts, guest, userCart, price, nextId)[userCart].items;
            && (forall p :: QuantityOf(after, p) == QuantityOf(before, p) + QuantityOf(guestItems, p))
            && TotalQuantity(after) == TotalQuantity(before) + TotalQuantity(guestItems)
            && |after| >= |before|
            && (forall i :: 0 <= i < |before| && before[i].product !in ProductsOf(guestItems) ==> after[i] == before[i])
  {
    MergeLinesSpec(carts[userCart].items, carts[guest].items, price, nextId);
    MergeConservesQuantity(carts[userCart].items, carts[guest].items, price, nextId);
  }

  /**
   * MergeCartView.post: the guest cart (the cart with this code and no
   * owner) is merged into the user's open cart, created without a code when
   * missing; then the guest cart is deleted. The new table is MergedCarts of
   * the table with the user's open cart in it.
   */
  method MergeCart(store: CartStore, user: UserId, guestCode: CartCode, defaultPrice: Cents)
    returns (status: Status, guest: CartId, userCart: CartId)
    requires store.Valid()
    modifies store
    ensures store.Valid()
    ensures status == Ok || status == BadRequest || status == NotFound
    ensures status == BadRequest <==> guestCode == ""
    ensures status == NotFound <==> guestCode != "" && forall id :: id in old(store.carts) && old(store.carts)[id].code == guestCode ==> old(store.carts)[id].owner.Some?
    ensures status != Ok ==> store.carts == old(store.carts)
    ensures status == Ok ==>
      && guest in old(store.carts) && old(store.carts)[guest].code == guestCode && old(store.carts)[guest].owner.None?
      && guest != userCart
      && (userCart in old(store.carts) ==> IsOpenCartOf(old(store.carts), userCart, user))
      && (userCart !in old(store.carts) ==> forall id :: id in old(store.carts) ==> !IsOpenCartOf(old(store.carts), id, user))
    ensures status == Ok ==>
      var withUserCart := if userCart in old(store.carts) then old(store.carts)
                          else old(store.carts)[userCart := Cart("", Some(user), false, [])];
      && WellFormed(withUserCart[userCart].items, old(store.nextItemId))
      && store.carts == MergedCarts(withUserCart, guest, userCart, defaultPrice, old(store.nextItemId))
  {
    if guestCode == "" {
      return BadRequest, 0, 0;
    }
    var found := store.FindByCode(guestCode);
    if found.None? || store.carts[found.value].owner.Some? {
      return NotFound, 0, 0;
    }
    guest := found.value;
    var open := store.FindOpenCartOf(user);
    if open.Some? {
      userCart := open.value;
    } else {
      userCart := store.CreateCart("", Some(user));
    }
    MergeAndDelete(store, guest, userCart, defaultPrice);
    status := Ok;
  }

  /** Merge the guest cart's lines into the user cart, then delete the guest cart. */
  method MergeAndDelete(store: CartStore, guest: CartId, userCart: CartId, defaultPrice: Cents)
    requires store.Valid() && guest in store.carts && userCart in store.carts && guest != userCart
    modifies store
    ensures store.Valid()
    ensures store.carts == MergedCarts(old(store.carts), guest, userCart, defaultPrice, old(store.nextItemId))
  {
    var items, next := MergeItems(store.carts[userCart].items, store.carts[guest].items, defaultPrice, store.nextItemId);
    store.SaveItems(userCart, items, next);
    store.DeleteCart(guest);
  }

  /**
   * The merge loop: each guest line in turn is added into the user lines by
   * the increment rule, a new line taking the next fresh id.
   */
  method MergeItems(user: seq<CartItem>, guest: seq<CartItem>, price: Cents, nextId: ItemId)
    returns (items: seq<CartItem>, next: ItemId)
    requires WellFormed(user, nextId)
    ensures (items, next) == MergeLines(user, guest, price, nextId)
    ensures WellFormed(items, next) && nextId <= next
  {
    items, next := user, nextId;
    var i := 0;
    while i < |guest|
      invariant 0 <= i <= |guest|
      invariant WellFormed(items, next) && nextId <= next
      invariant MergeLines(items, guest[i..], price, next) == MergeLines(user, guest, price, nextId)
    {
      var g := guest[i];
      assert guest[i..][0] == g && guest[i..][1..] == guest[i + 1..];
      var created := !Holds(items, g.product);
      IncrementKeepsWellFormed(items, next, g.product, g.quantity, price);
      items := Increment(items, g.product, g.quantity, price, next);
      if created {
        next := next + 1;
      }
      i := i + 1;
    }
    assert guest[i..] == [];
  }

  /**
   * AddItemAPIView.post: needs a cart code and a product id; gets or creates
   * the cart; then (for a known product) gets or creates the line at 0 units,
   * refreshes its unit price to the product's current price and adds the
   * quantity (default 1, not checked). An unknown product answers not-found
   * after the cart has been created.
   */
  method AddItemApi(store: CartStore, products: Products, code: CartCode, product: Option<ProductId>, quantity: IntParam)
    returns (status: Status, cart: CartId)
    requires store.Valid()
    modifies store
    ensures store.Valid()
    ensures status in {Ok, BadRequest, ServerError, NotFound}
    ensures status == BadRequest <==> code == "" || product.None?
    ensures status == ServerError <==> code != "" && product.Some? && QuantityOrOne(quantity).None?
    ensures status == BadRequest || status == ServerError ==> store.carts == old(store.carts)
    ensures status == NotFound <==> code != "" && product.Some? && QuantityOrOne(quantity).Some? && product.value !in products
    ensures status == NotFound || status == Ok ==>
      && (cart in old(store.carts) ==> old(store.carts)[cart].code == code)
      && (cart !in old(store.carts) ==> !CodeInUse(old(store.carts), code))
    ensures status == NotFound ==>
      store.carts == if cart in old(store.carts) then old(store.carts)
                     else old(store.carts)[cart := Cart(code, None, false, [])]
    ensures status == Ok ==>
      var p := product.value;
      var found := if cart in old(store.carts) then old(store.carts)[cart] else Cart(code, None, false, []);
      && p in products
      && store.carts == old(store.carts)[cart := found.(items :=
           AddPriced(found.items, p, QuantityOrOne(quantity).value, products[p].price, old(store.nextItemId)))]
  {
    if code == "" || product.None? {
      return BadRequest, 0;
    }
    var q := QuantityOrOne(quantity);
    if q.None? {
      return ServerError, 0;
    }
    cart := CartByCode(store, code);
    var p := product.value;
    if p !in products {
      return NotFound, cart;
    }
    SaveAddPriced(store, cart, p, q.value, products[p].price);
    status := Ok;
  }

  /** `Cart.objects.get_or_create(cart_code=code)`: the cart with this code, created without an owner when missing. */
  method CartByCode(store: CartStore, code: CartCode) returns (cart: CartId)
    requires store.Valid()
    modifies store
    ensures store.Valid() && store.nextItemId == old(store.nextItemId)
    ensures cart in old(store.carts) ==> old(store.carts)[cart].code == code && store.carts == old(store.carts)
    ensures cart !in old(store.carts) ==>
              !CodeInUse(old(store.carts), code) && store.carts == old(store.carts)[cart := Cart(code, None, false, [])]
  {
    var found := store.FindByCode(code);
    if found.Some? {
      cart := found.value;
    } else {
      cart := store.CreateCart(code, None);
    }
  }

  /** Add `qty` units of `product` to one cart's lines with the frontend rule, and save them. */
  method SaveAddPriced(store: CartStore, cart: CartId, product: ProductId, qty: int, price: Cents)
    requires store.Valid() && cart in store.carts
    modifies store
    ensures store.Valid()
    ensures store.carts == old(store.carts)[cart := old(store.carts)[cart].(items :=
              AddPriced(old(store.carts)[cart].items, product, qty, price, old(store.nextItemId)))]
  {
    var items := store.carts[cart].items;
    var next := store.nextItemId;
    AddPricedKeepsWellFormed(items, next, product, qty, price);
    store.SaveItems(cart, AddPriced(items, product, qty, price, next), if Holds(items, product) then next else next + 1);
  }

  /**
   * UpdateItemAPIView.post: needs a cart code and an item id; the quantity
   * (default 1) must be at least 1; after the cart and the line are found the
   * line's quantity is set to exactly that.
   */
  method UpdateItemApi(store: CartStore, code: CartCode, itemId: Option<ItemId>, quantity: IntParam)
    returns (status: Status, cart: CartId)
    requires store.Valid()
    modifies store
    ensures store.Valid()
    ensures status != Ok ==> store.carts == old(store.carts)
    ensures status in {Ok, BadRequest, ServerError, NotFound}
    ensures status == BadRequest <==>
              code == "" || itemId.None? || (QuantityOrOne(quantity).Some? && QuantityOrOne(quantity).value < 1)
    ensures status == ServerError <==> code != "" && itemId.Some? && QuantityOrOne(quantity).None?
    ensures status == NotFound <==>
              && code != "" && itemId.Some? && QuantityOrOne(quantity).Some? && QuantityOrOne(quantity).value >= 1
              && !HasLine(old(store.carts), code, itemId.value)
    ensures status == Ok ==> code != "" && itemId.Some?
                             && cart in old(store.carts) && old(store.carts)[cart].code == code
    ensures status == Ok ==>
      var before := old(store.carts)[cart].items;
      var q := QuantityOrOne(quantity).value;
      && q >= 1
      && FindItem(before, itemId.value).Some?
      && store.carts == old(store.carts)[cart := old(store.carts)[cart].(items := SetQuantity(before, FindItem(before, itemId.value).value, q))]
      && QuantityOf(store.carts[cart].items, before[FindItem(before, itemId.value).value].product) == q
  {
    if code == "" || itemId.None? {
      return BadRequest, 0;
    }
    var q := QuantityOrOne(quantity);
    if q.None? {
      return ServerError, 0;
    }
    if q.value < 1 {
      return BadRequest, 0;
    }
    var found := store.FindByCode(code);
    if found.None? {
      return NotFound, 0;
    }
    cart := found.value;
    var items := store.carts[cart].items;
    var line := FindItem(items, itemId.value);
    if line.None? {
      return NotFound, cart;
    }
    ReplaceKeepsWellFormed(items, store.nextItemId, line.value, items[line.value].(quantity := q.value));
    store.SaveItems(cart, SetQuantity(items, line.value, q.value), store.nextItemId);
    status := Ok;
  }

  /** DeleteItemAPIView.post: needs a cart code and an item id; after the cart and the line are found the line is deleted. */
  method DeleteItemApi(store: CartStore, code: CartCode, itemId: Option<ItemId>)
    returns (status: Status, cart: CartId)
    requires store.Valid()
    modifies store
    ensures store.Valid()
    ensures status == Ok || status == BadRequest || status == NotFound
    ensures status == BadRequest <==> code == "" || itemId.None?
    ensures code != "" && itemId.Some? ==> (status == NotFound <==> !HasLine(old(store.carts), code, itemId.value))
    ensures status != Ok ==> store.carts == old(store.carts)
    ensures status == Ok ==> cart in old(store.carts) && old(store.carts)[cart].code == code
    ensures status == Ok ==>
      var before := old(store.carts)[cart].items;
      && FindItem(before, itemId.value).Some?
      && store.carts == old(store.carts)[cart := old(store.carts)[cart].(items := RemoveLine(before, FindItem(before, itemId.value).value))]
      && FindItem(store.carts[cart].items, itemId.value).None?
  {
    if code == "" || itemId.None? {
      return BadRequest, 0;
    }
    status, cart := DeleteItem(store, code, itemId.value);
  }
}
