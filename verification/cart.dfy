/**
 * The cart as a value: the duplicate lookup (`Array.prototype.find` by id) and the
 * pure update that the store's add-to-cart applies to the previous cart.
 */
module Cart {
  import opened Products

  /**
   * The first entry of `items` whose id is `id`, or None when there is none
   * (what `items.find(item => item.id === id)` yields).
   */
  function Find(items: seq<Product>, id: int): (r: Option<Product>)
    ensures r.None? <==> !HasId(items, id)
    ensures r.Some? ==> r.value.id == id
    ensures r.Some? ==> exists k | 0 <= k < |items| :: items[k] == r.value && !HasId(items[..k], id)
  {
    if items == [] then None
    else if items[0].id == id then
      assert items[..0] == [];
      Some(items[0])
    else
      var r := Find(items[1..], id);
      assert HasId(items, id) ==> HasId(items[1..], id) by {
        if HasId(items, id) {
          var i :| 0 <= i < |items| && items[i].id == id;
          assert items[1..][i - 1].id == id;
        }
      }
      assert r.Some? ==> exists k | 0 <= k < |items| :: items[k] == r.value && !HasId(items[..k], id) by {
        if r.Some? {
          var k :| 0 <= k < |items[1..]| && items[1..][k] == r.value && !HasId(items[1..][..k], id);
          assert items[..k + 1] == [items[0]] + items[1..][..k];
          assert items[k + 1] == r.value;
        }
      }
      r
  }

  /**
   * The cart after adding `p`: unchanged when an entry with `p.id` is already
   * present (whatever `p`'s other fields are), otherwise `p` appended at the end.
   */
  function AddToCart(cart: seq<Product>, p: Product): (r: seq<Product>)
    ensures HasId(cart, p.id) ==> r == cart
    ensures !HasId(cart, p.id) ==> r == cart + [p]
  {
    if Find(cart, p.id).Some? then cart else cart + [p]
  }

  /** After an add, the cart holds an entry with the added product's id. */
  lemma AddToCartContains(cart: seq<Product>, p: Product)
    ensures HasId(AddToCart(cart, p), p.id)
  {
    if !HasId(cart, p.id) {
      assert AddToCart(cart, p)[|cart|] == p;
    }
  }

  /** Adding the same product twice gives the same cart as adding it once. */
  lemma AddToCartIdempotent(cart: seq<Product>, p: Product)
    ensures AddToCart(AddToCart(cart, p), p) == AddToCart(cart, p)
  {
    AddToCartContains(cart, p);
  }

  /** Adding never introduces a second entry for an id already in the cart. */
  lemma AddToCartPreservesUnique(cart: seq<Product>, p: Product)
    requires UniqueIds(cart)
    ensures UniqueIds(AddToCart(cart, p))
  {
    if !HasId(cart, p.id) {
      var r := cart + [p];
      forall i, j | 0 <= i < j < |r| ensures r[i].id != r[j].id {
        if j == |cart| {
          assert r[i] == cart[i];
        }
      }
    }
  }

  /** Looking up an id in `items + [p]`: an earlier match wins, else `p` if it matches. */
  lemma FindAppend(items: seq<Product>, p: Product, id: int)
    ensures Find(items + [p], id) ==
      if Find(items, id).Some? then Find(items, id)
      else if p.id == id then Some(p) else None
  {
    if items != [] {
      assert (items + [p])[1..] == items[1..] + [p];
      FindAppend(items[1..], p, id);
    }
  }

  /** The cart after adding each product of `ps` in turn, starting from `cart`. */
  function AddAll(cart: seq<Product>, ps: seq<Product>): seq<Product>
  {
    if ps == [] then cart
    else AddToCart(AddAll(cart, ps[..|ps| - 1]), ps[|ps| - 1])
  }

  /**
   * Whatever products are added, the cart's entry for any id is the first one
   * that was offered with that id (or the one already in the cart).
   */
  lemma {:induction false} AddAllKeepsFirst(cart: seq<Product>, ps: seq<Product>, id: int)
    ensures Find(AddAll(cart, ps), id) == Find(cart + ps, id)
  {
    if ps == [] {
      assert cart + ps == cart;
    } else {
      var init, last := ps[..|ps| - 1], ps[|ps| - 1];
      assert ps == init + [last];
      assert cart + ps == (cart + init) + [last];
      AddAllKeepsFirst(cart, init, id);
      AddAllKeepsFirst(cart, init, last.id);
      FindAppend(cart + init, last, id);
      if !HasId(AddAll(cart, init), last.id) {
        FindAppend(AddAll(cart, init), last, id);
      }
    }
  }

  /** A cart built by adds from a cart with unique ids keeps its ids unique. */
  lemma {:induction false} AddAllUnique(cart: seq<Product>, ps: seq<Product>)
    requires UniqueIds(cart)
    ensures UniqueIds(AddAll(cart, ps))
  {
    if ps != [] {
      AddAllUnique(cart, ps[..|ps| - 1]);
      AddToCartPreservesUnique(AddAll(cart, ps[..|ps| - 1]), ps[|ps| - 1]);
    }
  }

  /**
   * Reference definition: the entries of `ps` whose id does not occur earlier in `ps`,
   * in their original order.
   */
  function FirstOccurrences(ps: seq<Product>): seq<Product>
  {
    if ps == [] then []
    else
      var init, last := ps[..|ps| - 1], ps[|ps| - 1];
      FirstOccurrences(init) + (if HasId(init, last.id) then [] else [last])
  }

  /** Starting from the empty cart, the cart's order is the order of first insertion. */
  lemma {:induction false} AddAllIsFirstOccurrences(ps: seq<Product>)
    ensures AddAll([], ps) == FirstOccurrences(ps)
  {
    if ps != [] {
      var init, last := ps[..|ps| - 1], ps[|ps| - 1];
      AddAllIsFirstOccurrences(init);
      AddAllKeepsFirst([], init, last.id);
      assert [] + init == init;
    }
  }

  /** Adding products with pairwise distinct ids to the empty cart keeps them all, in call order. */
  lemma {:induction false} DistinctAddsKeepOrder(ps: seq<Product>)
    requires UniqueIds(ps)
    ensures AddAll([], ps) == ps
  {
    if ps != [] {
      var init, last := ps[..|ps| - 1], ps[|ps| - 1];
      assert UniqueIds(init) by {
        forall i, j | 0 <= i < j < |init| ensures init[i].id != init[j].id {
          assert init[i] == ps[i] && init[j] == ps[j];
        }
      }
      DistinctAddsKeepOrder(init);
      assert !HasId(init, last.id) by {
        forall i | 0 <= i < |init| ensures init[i].id != last.id {
          assert init[i] == ps[i];
        }
      }
      assert ps == init + [last];
    }
  }
}
