/** The cart summary's total: a left fold adding each entry's price to a running sum from 0. */
module CartTotal {
  import opened Products
  import opened Cart

  /** Sum of the prices of `items`, accumulated from the left as `reduce` does. */
  function Total(items: seq<Product>): real
  {
    if items == [] then 0.0
    else Total(items[..|items| - 1]) + items[|items| - 1].price
  }

  /** Appending an item adds exactly its price to the total. */
  lemma TotalAppend(items: seq<Product>, p: Product)
    ensures Total(items + [p]) == Total(items) + p.price
  {
    assert (items + [p])[..|items|] == items;
  }

  /** The total of a concatenation is the sum of the totals. */
  lemma {:induction false} TotalConcat(a: seq<Product>, b: seq<Product>)
    ensures Total(a + b) == Total(a) + Total(b)
  {
    if b == [] {
      assert a + b == a;
    } else {
      var init, last := b[..|b| - 1], b[|b| - 1];
      assert a + b == (a + init) + [last];
      TotalConcat(a, init);
      TotalAppend(a + init, last);
    }
  }

  /** The total does not depend on the order of the entries. */
  lemma {:induction false} TotalPermutation(a: seq<Product>, b: seq<Product>)
    requires multiset(a) == multiset(b)
    ensures Total(a) == Total(b)
    decreases |a|
  {
    if a == [] {
      assert |b| == |multiset(b)| == 0;
    } else {
      var init, last := a[..|a| - 1], a[|a| - 1];
      assert a == init + [last];
      assert last in multiset(b);
      var i :| 0 <= i < |b| && b[i] == last;
      var rest := b[..i] + b[i + 1..];
      assert b == b[..i] + [last] + b[i + 1..];
      assert multiset(b) == multiset(rest) + multiset{last};
      assert multiset(a) == multiset(init) + multiset{last};
      assert multiset(init) == multiset(a) - multiset{last};
      assert multiset(rest) == multiset(b) - multiset{last};
      TotalPermutation(init, rest);
      TotalAppend(init, last);
      TotalConcat(b[..i] + [last], b[i + 1..]);
      TotalAppend(b[..i], last);
      TotalConcat(b[..i], b[i + 1..]);
    }
  }

  /** With non-negative prices the total is non-negative. */
  lemma {:induction false} TotalNonNegative(items: seq<Product>)
    requires forall i | 0 <= i < |items| :: items[i].price >= 0.0
    ensures Total(items) >= 0.0
  {
    if items != [] {
      TotalNonNegative(items[..|items| - 1]);
    }
  }

  /** An add that is kept raises the total by the new price; a duplicate add leaves it. */
  lemma TotalAfterAdd(cart: seq<Product>, p: Product)
    ensures Total(AddToCart(cart, p)) == Total(cart) + (if HasId(cart, p.id) then 0.0 else p.price)
  {
    if !HasId(cart, p.id) {
      TotalAppend(cart, p);
    }
  }

  /**
   * A local item (id 1, price 4999) then a remote item (id 101, price 19.9) added to
   * an empty cart: two entries in that order, total 5018.9.
   */
  lemma LocalThenRemoteScenario(local: Product, remote: Product)
    requires local.id == 1 && local.price == 4999.0
    requires remote.id == 101 && remote.price == 19.9
    ensures AddAll([], [local, remote]) == [local, remote]
    ensures Total(AddAll([], [local, remote])) == 5018.9
  {
    var c1 := AddToCart([], local);
    assert c1 == [local];
    assert [local, remote][..1] == [local];
    assert AddAll([], [local]) == c1 by {
      assert [local][..0] == [];
    }
    assert !HasId(c1, remote.id);
    assert c1 + [remote] == [local, remote];
    TotalAppend(c1, remote);
    TotalAppend([], local);
  }

  /**
   * Reordering adds of products with pairwise distinct ids leaves the total unchanged:
   * every product is kept, so only the order of the entries differs.
   */
  lemma TotalReorderedAdds(ps: seq<Product>, qs: seq<Product>)
    requires UniqueIds(ps) && UniqueIds(qs) && multiset(ps) == multiset(qs)
    ensures Total(AddAll([], ps)) == Total(AddAll([], qs))
  {
    DistinctAddsKeepOrder(ps);
    DistinctAddsKeepOrder(qs);
    TotalPermutation(ps, qs);
  }

  /**
   * When one id is offered at two different prices, the total depends on the order of
   * the adds: the product offered first is kept and only its price is counted.
   */
  lemma TotalDependsOnAddOrder(a: Product, b: Product)
    requires a.id == b.id && a.price != b.price
    ensures AddAll([], [a, b]) == [a] && AddAll([], [b, a]) == [b]
    ensures Total(AddAll([], [a, b])) == a.price
    ensures Total(AddAll([], [a, b])) != Total(AddAll([], [b, a]))
  {
    assert [a, b][..1] == [a] && [b, a][..1] == [b];
    assert [a][..0] == [] && [b][..0] == [];
    assert !HasId([], a.id) && !HasId([], b.id);
    assert AddToCart([], a) == [a];
    assert AddToCart([], b) == [b];
    assert AddAll([], [a]) == AddToCart(AddAll([], []), a);
    assert AddAll([], [b]) == AddToCart(AddAll([], []), b);
    assert [a][0].id == b.id && [b][0].id == a.id;
    assert HasId([a], b.id) && HasId([b], a.id);
    TotalAppend([], a);
    TotalAppend([], b);
  }
}
