/**
 * The revised shop endpoints, where a cart is named by its `cart_mode`:
 * adding an item (creating a fresh cart when the caller has none or names an
 * unknown one) and asking whether a product is in a cart.
 */
module ShopViewsUpdated {

  import opened Wrappers
  import opened Catalog
  import opened CartItems
  import opened Carts
  import opened Requests

  /** The length of a freshly drawn cart mode (`get_random_string(10)`). */
  const CartModeLength: nat := 10

  /**
   * `add_item`. With no cart mode, or one no cart holds, a new empty cart is
   * created under the drawn mode and returned (201) without adding anything.
   * Otherwise an unknown or missing product, or a quantity that is `null` or
   * not an integer, fails (500, caught by the handler) and changes nothing; else the
   * product's line grows by the quantity (1 when absent; it is not checked to
   * be positive) and the answer is 201.
   */
  method AddItem(store: CartStore, products: Products, cartMode: CartCode, productId: Option<ProductId>,
                 quantity: IntParam, draw: CartCode, defaultPrice: Cents)
    returns (status: Status, newCartMode: Option<CartCode>, cart: CartId)
    requires store.Valid() && |draw| == CartModeLength
    modifies store
    ensures store.Valid()
    ensures status in {Created, ServerError}
    ensures status == ServerError ==> store.carts == old(store.carts) && newCartMode.None?
    ensures newCartMode.Some? ==> |newCartMode.value| == CartModeLength
    ensures cartMode == "" || !CodeInUse(old(store.carts), cartMode) ==>
              && (status == ServerError <==> CodeInUse(old(store.carts), draw))
              && (status == Created ==>
                    && newCartMode == Some(draw) && cart !in old(store.carts)
                    && store.carts == old(store.carts)[cart := Cart(draw, None, false, [])])
    ensures cartMode != "" && CodeInUse(old(store.carts), cartMode) ==>
              && newCartMode.None?
              && (status == ServerError <==> productId.None? || productId.value !in products || QuantityOrOne(quantity).None?)
    ensures status == Created && newCartMode.None? ==>
              && cart in old(store.carts) && old(store.carts)[cart].code == cartMode
              && productId.Some? && QuantityOrOne(quantity).Some?
              && var before := old(store.carts)[cart].items;
                 var q := QuantityOrOne(quantity).value;
                 && store.carts == old(store.carts)[cart := old(store.carts)[cart].(items :=
                      Increment(before, productId.value, q, defaultPrice, old(store.nextItemId)))]
                 && QuantityOf(store.carts[cart].items, productId.value) == QuantityOf(before, productId.value) + q
  {
    var found := None;
    if cartMode != "" {
      found := store.FindByCode(cartMode);
    }
    if found.None? {
      if CodeInUse(store.carts, draw) {
        return ServerError, None, 0;
      }
      cart := store.CreateCart(draw, None);
      return Created, Some(draw), cart;
    }
    cart := found.value;
    if productId.None? || productId.value !in products {
      return ServerError, None, cart;
    }
    var q := QuantityOrOne(quantity);
    if q.None? {
      return ServerError, None, cart;
    }
    var product := productId.value;
    var items := store.carts[cart].items;
    var next := store.nextItemId;
    IncrementKeepsWellFormed(items, next, product, q.value, defaultPrice);
    store.SaveItems(cart, Increment(items, product, q.value, defaultPrice, next), if Holds(items, product) then next else next + 1);
    status, newCartMode := Created, None;
  }

  /** The answers of `product_in_cart`: 400 for a missing parameter, 200 with a flag, or 500. */
  datatype InCartAnswer = MissingParams | Answer(inCart: bool) | Failure

  /**
   * `product_in_cart`: a missing parameter is 400; an unknown cart answers
   * "not in cart"; an unknown product (in a known cart) is 500; otherwise the
   * answer says whether the cart has a line for the product.
   */
  function ProductInCart(carts: map<CartId, Cart>, products: Products, cartMode: CartCode,
                         productId: Option<ProductId>): (r: InCartAnswer)
    ensures r.MissingParams? <==> cartMode == "" || productId.None?
    ensures r.Failure? <==> cartMode != "" && productId.Some? && CodeInUse(carts, cartMode) && productId.value !in products
    ensures r.Answer? ==>
              (r.inCart <==> exists id :: id in carts && carts[id].code == cartMode && Holds(carts[id].items, productId.value))
    ensures cartMode != "" && productId.Some? && !CodeInUse(carts, cartMode) ==> r == Answer(false)
  {
    if cartMode == "" || productId.None? then MissingParams
    else if !CodeInUse(carts, cartMode) then Answer(false)
    else if productId.value !in products then Failure
    else Answer(exists id :: id in carts && carts[id].code == cartMode && Holds(carts[id].items, productId.value))
  }

  /** After a product is added to a cart, asking about it answers "in cart". */
  lemma InCartAfterAdd(carts: map<CartId, Cart>, products: Products, cart: CartId, product: ProductId, q: int,
                       price: Cents, freshId: ItemId)
    requires cart in carts && carts[cart].code != "" && product in products
    ensures var after := carts[cart := carts[cart].(items := Increment(carts[cart].items, product, q, price, freshId))];
            ProductInCart(after, products, carts[cart].code, Some(product)) == Answer(true)
  {
    var after := carts[cart := carts[cart].(items := Increment(carts[cart].items, product, q, price, freshId))];
    assert cart in after && after[cart].code == carts[cart].code && Holds(after[cart].items, product);
  }

  /**
   * After a product's line is removed from a cart, asking about it answers
   * "not in cart": codes are unique, so no other cart answers for this one.
   */
  lemma NotInCartAfterRemove(carts: map<CartId, Cart>, products: Products, cart: CartId, k: nat)
    requires UniqueCodes(carts) && cart in carts && carts[cart].code != ""
    requires k < |carts[cart].items| && DistinctProducts(carts[cart].items) && carts[cart].items[k].product in products
    ensures var after := carts[cart := carts[cart].(items := RemoveLine(carts[cart].items, k))];
            ProductInCart(after, products, carts[cart].code, Some(carts[cart].items[k].product)) == Answer(false)
  {
    var product := carts[cart].items[k].product;
    var after := carts[cart := carts[cart].(items := RemoveLine(carts[cart].items, k))];
    assert cart in after && after[cart].code == carts[cart].code;
    forall id | id in after && after[id].code == carts[cart].code ensures !Holds(after[id].items, product) {
      assert id == cart;
    }
  }
}
