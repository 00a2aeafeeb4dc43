/** The page-wide state store: the current selection and the cart, updated in place. */
module Store {
  import opened Products
  import opened Cart

  class AppStore {
    /** The highlighted product, or None. */
    var selectedProduct: Option<Product>
    /** The cart, in order of first insertion. */
    var cart: seq<Product>

    /** The store's invariant: no two cart entries share an id. */
    ghost predicate Valid()
      reads this
    {
      UniqueIds(cart)
    }

    /** A fresh store: nothing selected, empty cart. */
    constructor ()
      ensures Valid()
      ensures selectedProduct == None && cart == []
    {
      selectedProduct := None;
      cart := [];
    }

    /** Replaces the selection with exactly `p` (which may be None); the cart is untouched. */
    method SelectProduct(p: Option<Product>)
      requires Valid()
      modifies this
      ensures Valid()
      ensures selectedProduct == p
      ensures cart == old(cart)
    {
      selectedProduct := p;
    }

    /**
     * Adds `p` unless an entry with `p.id` is already in the cart, in which case the
     * cart stays exactly as it was (the first-added entry is kept). The selection is untouched.
     */
    method AddToCart(p: Product)
      requires Valid()
      modifies this
      ensures Valid()
      ensures HasId(old(cart), p.id) ==> cart == old(cart)
      ensures !HasId(old(cart), p.id) ==> cart == old(cart) + [p]
      ensures cart == Cart.AddToCart(old(cart), p)
      ensures selectedProduct == old(selectedProduct)
    {
      AddToCartPreservesUnique(cart, p);
      if Find(cart, p.id).None? {
        cart := cart + [p];
      }
    }
  }

  /**
   * Two adds of the same product through the store leave the same cart as one,
   * and the selection survives both.
   */
  method AddTwice(store: AppStore, p: Product)
    requires store.Valid()
    modifies store
    ensures store.Valid()
    ensures store.cart == Cart.AddToCart(old(store.cart), p)
    ensures store.selectedProduct == old(store.selectedProduct)
  {
    store.AddToCart(p);
    store.AddToCart(p);
    AddToCartIdempotent(old(store.cart), p);
  }
}
