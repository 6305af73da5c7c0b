/**
 * The cart tables: every Cart row with its CartItem rows. A cart has a code
 * ("" while none has been assigned), an optional owning user, a paid flag and
 * its lines. Both the cart app and the shop app keep such a table; each is one
 * CartStore object.
 */
module Carts {

  import opened Wrappers
  import opened Catalog
  import opened CartItems

  type CartId = nat
  type UserId = nat
  type CartCode = string

  datatype Cart = Cart(code: CartCode, owner: Option<UserId>, paid: bool, items: seq<CartItem>)

  /** A non-empty cart code names at most one cart (codes are the carts' public keys). */
  ghost predicate UniqueCodes(carts: map<CartId, Cart>)
  {
    forall a, b :: a in carts && b in carts && a != b && carts[a].code != "" ==> carts[a].code != carts[b].code
  }

  predicate CodeInUse(carts: map<CartId, Cart>, code: CartCode)
  {
    exists id :: id in carts && carts[id].code == code
  }

  /**
   * More than one cart holds this code: `get(cart_code=code)` then raises
   * MultipleObjectsReturned. Only the code "" can be shared in a valid store.
   */
  predicate CodeShared(carts: map<CartId, Cart>, code: CartCode)
  {
    exists a, b :: a in carts && b in carts && a != b && carts[a].code == code && carts[b].code == code
  }

  /** With unique codes, only the empty code can be held by two carts. */
  lemma OnlyEmptyCodeShared(carts: map<CartId, Cart>, code: CartCode)
    requires UniqueCodes(carts) && CodeShared(carts, code)
    ensures code == ""
  {
  }

  /** The unpaid carts of a user: what `get_or_create(user=u, paid=False)` looks for. */
  predicate IsOpenCartOf(carts: map<CartId, Cart>, id: CartId, user: UserId)
  {
    id in carts && carts[id].owner == Some(user) && !carts[id].paid
  }

  /** The cart with this code that belongs to this user: what `get(code=..., user=...)` looks for. */
  predicate IsOwnedCartWithCode(carts: map<CartId, Cart>, id: CartId, code: CartCode, user: UserId)
  {
    id in carts && carts[id].code == code && carts[id].owner == Some(user)
  }

  /** With unique codes, a user owns at most one cart with a given non-empty code. */
  lemma OwnedCartUnique(carts: map<CartId, Cart>, a: CartId, b: CartId, code: CartCode, user: UserId)
    requires UniqueCodes(carts) && code != ""
    requires IsOwnedCartWithCode(carts, a, code, user) && IsOwnedCartWithCode(carts, b, code, user)
    ensures a == b
  {
  }

  lemma WellFormedGrows(items: seq<CartItem>, bound: nat, bound': nat)
    requires WellFormed(items, bound) && bound <= bound'
    ensures WellFormed(items, bound')
  {
  }

  class CartStore {
    var carts: map<CartId, Cart>
    var nextCartId: nat
    var nextItemId: nat

    /** Cart keys and item ids are below their counters, every cart's lines are well formed, codes are unique. */
    ghost predicate Valid()
      reads this
    {
      && (forall id :: id in carts ==> id < nextCartId && WellFormed(carts[id].items, nextItemId))
      && UniqueCodes(carts)
    }

    constructor ()
      ensures Valid() && carts == map[]
    {
      carts := map[];
      nextCartId := 0;
      nextItemId := 0;
    }

    /** `Cart.objects.get(cart_code=code)`: the cart holding this code, if there is one. */
    method FindByCode(code: CartCode) returns (r: Option<CartId>)
      requires Valid()
      ensures r.None? <==> !CodeInUse(carts, code)
      ensures r.Some? ==> r.value in carts && carts[r.value].code == code
      ensures r.Some? && code != "" ==> forall id :: id in carts && carts[id].code == code ==> id == r.value
    {
      if CodeInUse(carts, code) {
        var id :| id in carts && carts[id].code == code;
        r := Some(id);
      } else {
        r := None;
      }
    }

    /** The lookup half of `get_or_create(user=u, paid=False)`. */
    method FindOpenCartOf(user: UserId) returns (r: Option<CartId>)
      ensures r.None? <==> forall id :: id in carts ==> !IsOpenCartOf(carts, id, user)
      ensures r.Some? ==> IsOpenCartOf(carts, r.value, user)
    {
      if exists id :: id in carts && IsOpenCartOf(carts, id, user) {
        var id :| id in carts && IsOpenCartOf(carts, id, user);
        r := Some(id);
      } else {
        r := None;
      }
    }

    /** The lookup `Cart.objects.get(code=code, user=user)`: the user's cart holding this code, if any. */
    method FindOwnedByCode(code: CartCode, user: UserId) returns (r: Option<CartId>)
      ensures r.None? <==> forall id :: id in carts ==> !IsOwnedCartWithCode(carts, id, code, user)
      ensures r.Some? ==> IsOwnedCartWithCode(carts, r.value, code, user)
    {
      if exists id :: id in carts && IsOwnedCartWithCode(carts, id, code, user) {
        var id :| id in carts && IsOwnedCartWithCode(carts, id, code, user);
        r := Some(id);
      } else {
        r := None;
      }
    }

    /** Insert a new, unpaid, empty cart (the uniqueness of codes is the database's constraint). */
    method CreateCart(code: CartCode, owner: Option<UserId>) returns (id: CartId)
      requires Valid() && (code == "" || !CodeInUse(carts, code))
      modifies this
      ensures Valid()
      ensures id !in old(carts) && carts == old(carts)[id := Cart(code, owner, false, [])]
      ensures nextItemId == old(nextItemId)
    {
      id := nextCartId;
      carts := carts[id := Cart(code, owner, false, [])];
      nextCartId := nextCartId + 1;
    }

    /** Save the lines of one cart; `next` is the item-id counter after any rows were created. */
    method SaveItems(id: CartId, items: seq<CartItem>, next: nat)
      requires Valid() && id in carts && nextItemId <= next && WellFormed(items, next)
      modifies this
      ensures Valid()
      ensures carts == old(carts)[id := old(carts)[id].(items := items)] && nextItemId == next
    {
      forall other | other in carts ensures WellFormed(carts[other].items, next) {
        WellFormedGrows(carts[other].items, nextItemId, next);
      }
      carts := carts[id := carts[id].(items := items)];
      nextItemId := next;
    }

    /** Give a cart a code. */
    method SetCode(id: CartId, code: CartCode)
      requires Valid() && id in carts && code != "" && !CodeInUse(carts, code)
      modifies this
      ensures Valid()
      ensures carts == old(carts)[id := old(carts)[id].(code := code)] && nextItemId == old(nextItemId)
    {
      carts := carts[id := carts[id].(code := code)];
    }

    /** Delete a cart together with its lines. */
    method DeleteCart(id: CartId)
      requires Valid() && id in carts
      modifies this
      ensures Valid()
      ensures carts == old(carts) - {id} && nextItemId == old(nextItemId)
    {
      carts := carts - {id};
    }
  }
}
