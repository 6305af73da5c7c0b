/**
 * The original add-item endpoint of the shop: get or create the cart named by
 * the code, then get or create the product's line and set it to exactly one
 * unit.
 */
module CoreViews {

  import opened Wrappers
  import opened Catalog
  import opened CartItems
  import opened Carts
  import opened Requests
  import CartViews

  /**
   * `add_item`. A missing code is the code "": when several carts have no
   * code, the lookup raises and nothing changes (400). The cart is created
   * first when no cart holds the code, so it exists even when the product then
   * turns out to be missing or unknown (400). Otherwise the product's line
   * holds exactly one unit afterwards, whatever it held before, a new line
   * gets the default price, and nothing else changes (201).
   */
  method AddItem(store: CartStore, products: Products, cartCode: CartCode, productId: Option<ProductId>,
                 defaultPrice: Cents)
    returns (status: Status, cart: CartId)
    requires store.Valid()
    modifies store
    ensures store.Valid()
    ensures status in {Created, BadRequest}
    ensures status == BadRequest <==> CodeShared(old(store.carts), cartCode) || productId.None? || productId.value !in products
    ensures CodeShared(old(store.carts), cartCode) ==> store.carts == old(store.carts)
    ensures cart in store.carts && store.carts[cart].code == cartCode
    ensures CodeInUse(old(store.carts), cartCode) <==> cart in old(store.carts)
    ensures status == BadRequest ==>
              if cart in old(store.carts) then store.carts == old(store.carts)
              else store.carts == old(store.carts)[cart := Cart(cartCode, None, false, [])]
    ensures status == Created ==>
              var before := if cart in old(store.carts) then old(store.carts)[cart].items else [];
              var after := store.carts[cart].items;
              && QuantityOf(after, productId.value) == 1 && Holds(after, productId.value) && |after| >= |before|
              && (forall p :: p != productId.value ==> QuantityOf(after, p) == QuantityOf(before, p))
              && (forall i :: 0 <= i < |before| && before[i].product != productId.value ==> after[i] == before[i])
    ensures status == Created ==>
              var found := if cart in old(store.carts) then old(store.carts)[cart] else Cart(cartCode, None, false, []);
              store.carts == old(store.carts)[cart := found.(items := ResetToOne(found.items, productId.value, defaultPrice, old(store.nextItemId)))]
  {
    if CodeShared(store.carts, cartCode) {
      var a, b :| a in store.carts && b in store.carts && a != b && store.carts[a].code == cartCode && store.carts[b].code == cartCode;
      return BadRequest, a;
    }
    cart := CartViews.CartByCode(store, cartCode);
    if productId.None? || productId.value !in products {
      return BadRequest, cart;
    }
    SaveResetToOne(store, cart, productId.value, defaultPrice);
    status := Created;
  }

  /** The line step of `add_item`: get or create the product's line, set it to one unit, and save it. */
  method SaveResetToOne(store: CartStore, cart: CartId, product: ProductId, defaultPrice: Cents)
    requires store.Valid() && cart in store.carts
    modifies store
    ensures store.Valid()
    ensures store.carts == old(store.carts)[cart := old(store.carts)[cart].(items :=
              ResetToOne(old(store.carts)[cart].items, product, defaultPrice, old(store.nextItemId)))]
  {
    var items := store.carts[cart].items;
    var next := store.nextItemId;
    ResetToOneKeepsWellFormed(items, next, product, defaultPrice);
    store.SaveItems(cart, ResetToOne(items, product, defaultPrice, next), if Holds(items, product) then next else next + 1);
  }
}
