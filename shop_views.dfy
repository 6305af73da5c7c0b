/**
 * The shop app's product and cart views: the "similar products" shown beside
 * a product, and the add-to-cart endpoint that adds one unit per call.
 */
module ShopViews {

  import opened Wrappers
  import opened Catalog
  import opened CartItems
  import opened Carts
  import opened Requests

  /** How many similar products a product page shows. */
  const SimilarLimit: nat := 4

  /** `filter(category=c).exclude(id=x)`: the rows of category `c` other than product `x`, in table order. */
  function SameCategoryExcept(rows: seq<Product>, category: string, id: ProductId): (r: seq<Product>)
    ensures forall p :: p in r <==> p in rows && p.category == category && p.id != id
    ensures |r| <= |rows|
  {
    if rows == [] then []
    else if rows[0].category == category && rows[0].id != id then [rows[0]] + SameCategoryExcept(rows[1..], category, id)
    else SameCategoryExcept(rows[1..], category, id)
  }

  /** `exclude(id=x)`: every row but product `x`, in table order. */
  function WithoutId(rows: seq<Product>, id: ProductId): (r: seq<Product>)
    ensures forall p :: p in r <==> p in rows && p.id != id
    ensures |r| <= |rows|
  {
    if rows == [] then []
    else if rows[0].id != id then [rows[0]] + WithoutId(rows[1..], id)
    else WithoutId(rows[1..], id)
  }

  /** `[:n]`: at most the first `n` elements. */
  function Prefix(s: seq<Product>, n: nat): (r: seq<Product>)
    ensures |r| <= n && |r| <= |s|
    ensures |s| <= n ==> r == s
    ensures |s| > n ==> |r| == n
    ensures forall i :: 0 <= i < |r| ==> r[i] == s[i]
  {
    if |s| <= n then s else s[..n]
  }

  /** Ids strictly decrease along the sequence. */
  predicate Descending(s: seq<Product>)
  {
    forall i, j :: 0 <= i < j < |s| ==> s[i].id > s[j].id
  }

  /** Some element carries this id. */
  predicate HasId(s: seq<Product>, id: ProductId)
  {
    exists i :: 0 <= i < |s| && s[i].id == id
  }

  /** Every id in the sequence is below `bound`. */
  predicate AllBelow(s: seq<Product>, bound: ProductId)
  {
    forall i :: 0 <= i < |s| ==> s[i].id < bound
  }

  /** Every element of `s` is one of `rows`. */
  predicate Within(s: seq<Product>, rows: seq<Product>)
  {
    forall i :: 0 <= i < |s| ==> s[i] in rows
  }

  /** Insert a row into a list ordered by decreasing id; a row whose id is already listed is not added again. */
  function InsertById(s: seq<Product>, x: Product): (r: seq<Product>)
    ensures |r| <= |s| + 1
  {
    if s == [] then [x]
    else if x.id > s[0].id then [x] + s
    else if x.id == s[0].id then s
    else [s[0]] + InsertById(s[1..], x)
  }

  lemma {:induction false} InsertByIdBelow(s: seq<Product>, x: Product, bound: ProductId)
    requires AllBelow(s, bound) && x.id < bound
    ensures AllBelow(InsertById(s, x), bound)
  {
    if s != [] && x.id < s[0].id {
      InsertByIdBelow(s[1..], x, bound);
      assert InsertById(s, x) == [s[0]] + InsertById(s[1..], x);
    }
  }

  /** Insertion keeps the list ordered by strictly decreasing id. */
  lemma {:induction false} InsertByIdDescending(s: seq<Product>, x: Product)
    requires Descending(s)
    ensures Descending(InsertById(s, x))
  {
    if s != [] && x.id < s[0].id {
      var rest := InsertById(s[1..], x);
      InsertByIdDescending(s[1..], x);
      InsertByIdBelow(s[1..], x, s[0].id);
      assert InsertById(s, x) == [s[0]] + rest;
    }
  }

  /** Insertion adds no row other than `x`. */
  lemma {:induction false} InsertByIdWithin(s: seq<Product>, x: Product, rows: seq<Product>)
    requires Within(s, rows) && x in rows
    ensures Within(InsertById(s, x), rows)
  {
    if s != [] && x.id < s[0].id {
      InsertByIdWithin(s[1..], x, rows);
      assert InsertById(s, x) == [s[0]] + InsertById(s[1..], x);
    }
  }

  /** After insertion the id of `x` is listed, and every id listed before still is. */
  lemma {:induction false} InsertByIdIds(s: seq<Product>, x: Product, id: ProductId)
    requires id == x.id || HasId(s, id)
    ensures HasId(InsertById(s, x), id)
  {
    if s == [] {
      assert InsertById(s, x)[0] == x;
    } else if x.id > s[0].id {
      var r := InsertById(s, x);
      if id == x.id {
        assert r[0] == x;
      } else {
        var k :| 0 <= k < |s| && s[k].id == id;
        assert r[k + 1] == s[k];
      }
    } else if x.id < s[0].id {
      var r := InsertById(s, x);
      var rest := InsertById(s[1..], x);
      assert r == [s[0]] + rest;
      if id == s[0].id {
        assert r[0] == s[0];
      } else {
        if id != x.id {
          var k :| 0 <= k < |s| && s[k].id == id;
          assert s[1..][k - 1] == s[k];
        }
        InsertByIdIds(s[1..], x, id);
        var k :| 0 <= k < |rest| && rest[k].id == id;
        assert r[k + 1] == rest[k];
      }
    }
  }

  /** `order_by('-id')`: the rows by decreasing id, one per id. */
  function SortById(rows: seq<Product>): (r: seq<Product>)
    ensures Descending(r)
    ensures Within(r, rows)
    ensures forall i :: 0 <= i < |rows| ==> HasId(r, rows[i].id)
  {
    if rows == [] then []
    else
      var sorted := SortById(rows[1..]);
      InsertByIdDescending(sorted, rows[0]);
      assert Within(sorted, rows) by {
        forall i | 0 <= i < |sorted| ensures sorted[i] in rows {
          assert sorted[i] in rows[1..];
        }
      }
      InsertByIdWithin(sorted, rows[0], rows);
      forall i | 0 <= i < |rows| ensures HasId(InsertById(sorted, rows[0]), rows[i].id) {
        if i > 0 {
          assert rows[1..][i - 1] == rows[i];
        }
        InsertByIdIds(sorted, rows[0], rows[i].id);
      }
      InsertById(sorted, rows[0])
  }

  /** `order_by('-id')[:n]`: the (up to) `n` rows with the highest ids, highest first. */
  function TopByIdDesc(rows: seq<Product>, n: nat): (r: seq<Product>)
    ensures |r| <= n
    ensures Within(r, rows)
    ensures Descending(r)
  {
    Prefix(SortById(rows), n)
  }

  /**
   * Nothing with a higher id is passed over: a row whose id is not shown has a
   * lower id than every row shown, and rows are left out only when `n` rows
   * are shown.
   */
  lemma TopByIdDescKeepsHighest(rows: seq<Product>, n: nat, p: Product)
    requires p in rows && forall q :: q in TopByIdDesc(rows, n) ==> q.id != p.id
    ensures |TopByIdDesc(rows, n)| == n
    ensures forall q :: q in TopByIdDesc(rows, n) ==> p.id < q.id
  {
    var sorted := SortById(rows);
    var top := TopByIdDesc(rows, n);
    var k :| 0 <= k < |rows| && rows[k] == p;
    assert HasId(sorted, rows[k].id);
    var j :| 0 <= j < |sorted| && sorted[j].id == p.id;
    forall q | q in top ensures p.id < q.id {
      var i :| 0 <= i < |top| && top[i] == q;
      assert top[i] == sorted[i];
    }
  }

  /**
   * The similar products shown with `viewed`: with a category, the first four
   * other products of that category in table order; without one, the four
   * other products with the highest ids, highest first.
   */
  function SimilarProducts(rows: seq<Product>, viewed: Product): (r: seq<Product>)
    ensures |r| <= SimilarLimit
    ensures forall p :: p in r ==> p in rows && p.id != viewed.id
  {
    if viewed.category != "" then
      Prefix(SameCategoryExcept(rows, viewed.category, viewed.id), SimilarLimit)
    else
      TopByIdDesc(WithoutId(rows, viewed.id), SimilarLimit)
  }

  /**
   * With a category: every product shown shares it, the products are the
   * first ones of that category in table order, and fewer than four are shown
   * only when there are no others.
   */
  lemma SimilarByCategory(rows: seq<Product>, viewed: Product)
    requires viewed.category != ""
    ensures forall p :: p in SimilarProducts(rows, viewed) ==> p.category == viewed.category
    ensures forall i :: 0 <= i < |SimilarProducts(rows, viewed)|
              ==> SimilarProducts(rows, viewed)[i] == SameCategoryExcept(rows, viewed.category, viewed.id)[i]
    ensures |SimilarProducts(rows, viewed)| < SimilarLimit ==>
              forall p :: p in rows && p.category == viewed.category && p.id != viewed.id ==> p in SimilarProducts(rows, viewed)
  {
    var all := SameCategoryExcept(rows, viewed.category, viewed.id);
    var r := SimilarProducts(rows, viewed);
    assert r == Prefix(all, SimilarLimit);
    forall p | p in r ensures p.category == viewed.category {
      var i :| 0 <= i < |r| && r[i] == p;
      assert p == all[i] && all[i] in all;
    }
  }

  /**
   * Without a category: the products shown have strictly decreasing ids, and
   * any other product not shown has a lower id than all of them (with four
   * shown).
   */
  lemma SimilarFallback(rows: seq<Product>, viewed: Product, p: Product)
    requires viewed.category == ""
    requires p in rows && p.id != viewed.id && forall q :: q in SimilarProducts(rows, viewed) ==> q.id != p.id
    ensures |SimilarProducts(rows, viewed)| == SimilarLimit
    ensures forall q :: q in SimilarProducts(rows, viewed) ==> p.id < q.id
    ensures forall i, j :: 0 <= i < j < |SimilarProducts(rows, viewed)|
              ==> SimilarProducts(rows, viewed)[i].id > SimilarProducts(rows, viewed)[j].id
  {
    TopByIdDescKeepsHighest(WithoutId(rows, viewed.id), SimilarLimit, p);
  }

  /**
   * `AddToCartView.post`: 404 for an unknown cart or product; otherwise the
   * product's line gains one unit (a new line starts at one) and nothing else
   * changes.
   */
  method AddToCart(store: CartStore, products: Products, code: CartCode, product: ProductId, defaultPrice: Cents)
    returns (status: Status, cart: CartId)
    requires store.Valid()
    modifies store
    ensures store.Valid()
    ensures status in {Ok, NotFound}
    ensures status == NotFound <==> !CodeInUse(old(store.carts), code) || product !in products
    ensures status == NotFound ==> store.carts == old(store.carts)
    ensures status == Ok ==> cart in old(store.carts) && old(store.carts)[cart].code == code
    ensures status == Ok ==>
      var before := old(store.carts)[cart].items;
      && store.carts == old(store.carts)[cart := old(store.carts)[cart].(items := Increment(before, product, 1, defaultPrice, old(store.nextItemId)))]
      && QuantityOf(store.carts[cart].items, product) == QuantityOf(before, product) + 1
      && (forall p :: p != product ==> QuantityOf(store.carts[cart].items, p) == QuantityOf(before, p))
  {
    var found := store.FindByCode(code);
    if found.None? {
      return NotFound, 0;
    }
    cart := found.value;
    if product !in products {
      return NotFound, cart;
    }
    var items := store.carts[cart].items;
    var next := store.nextItemId;
    IncrementKeepsWellFormed(items, next, product, 1, defaultPrice);
    store.SaveItems(cart, Increment(items, product, 1, defaultPrice, next), if Holds(items, product) then next else next + 1);
    status := Ok;
  }
}
