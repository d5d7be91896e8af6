/** Properties relating the cart update callbacks to each other and to the
    store invariant (src/contexts/cart/CartProvider.jsx). */
module CartProperties {
  import opened Cart

  /** On the increment path of a cart with distinct ids exactly one line changes,
      and only its quantity, by exactly one. */
  lemma AddExistingIncrementsOneLine(cart: CartState, product: Product, k: nat)
    requires DistinctIds(cart)
    requires k < |cart| && cart[k].item.id == product.id
    ensures |AddToCart(cart, product)| == |cart|
    ensures AddToCart(cart, product)[k] == Line(cart[k].item, cart[k].qty + 1)
    ensures forall i :: 0 <= i < |cart| && i != k ==> AddToCart(cart, product)[i] == cart[i]
  {
    var r := AddToCart(cart, product);
    assert HasId(cart, product.id);
    forall i | 0 <= i < |cart| && i != k ensures r[i] == cart[i] {
      if i < k { assert cart[i].item.id != cart[k].item.id; }
      else { assert cart[k].item.id != cart[i].item.id; }
    }
  }

  lemma AddPreservesWellFormed(cart: CartState, product: Product)
    requires WellFormed(cart)
    ensures WellFormed(AddToCart(cart, product))
  {
    var r := AddToCart(cart, product);
    if !HasId(cart, product.id) {
      assert r == cart + [Line(product, 1)] by { assert r == r[..|cart|] + [r[|cart|]]; }
      AppendFreshKeepsWellFormed(cart, Line(product, 1));
    }
  }

  /** Appending a line with a new id and a positive quantity keeps the invariant. */
  lemma AppendFreshKeepsWellFormed(cart: CartState, line: Line)
    requires WellFormed(cart) && !HasId(cart, line.item.id) && line.qty >= 1
    ensures WellFormed(cart + [line])
  {
    var r := cart + [line];
    forall i, j | 0 <= i < j < |r| ensures r[i].item.id != r[j].item.id {
      assert r[i] == cart[i];
      if j < |cart| { assert r[j] == cart[j]; }
    }
  }

  lemma RemovePreservesWellFormed(cart: CartState, id: ProductId)
    requires WellFormed(cart)
    ensures WellFormed(RemoveFromCart(cart, id))
  {
    var r := RemoveFromCart(cart, id);
    forall x | x in multiset(r) ensures x in multiset(cart) && x.qty >= 1 {
      assert multiset(r)[x] <= multiset(cart)[x];
      var k :| 0 <= k < |cart| && cart[k] == x;
    }
    forall i | 0 <= i < |r| ensures r[i].qty >= 1 {
      assert r[i] in multiset(r);
    }
    RemoveKeepsDistinct(cart, id);
  }

  /** Prepending a line whose id is new keeps the ids distinct. */
  lemma ConsDistinct(head: Line, rest: CartState)
    requires DistinctIds(rest) && !HasId(rest, head.item.id)
    ensures DistinctIds([head] + rest)
  {
    var r := [head] + rest;
    forall i, j | 0 <= i < j < |r| ensures r[i].item.id != r[j].item.id {
      assert r[j] == rest[j - 1];
      if i > 0 { assert r[i] == rest[i - 1]; }
    }
  }

  lemma TailDistinct(cart: CartState)
    requires cart != [] && DistinctIds(cart)
    ensures DistinctIds(cart[1..]) && !HasId(cart[1..], cart[0].item.id)
  {
    var tail := cart[1..];
    forall i | 0 <= i < |tail| ensures tail[i].item.id != cart[0].item.id {
      assert tail[i] == cart[i + 1];
    }
    forall i, j | 0 <= i < j < |tail| ensures tail[i].item.id != tail[j].item.id {
      assert tail[i] == cart[i + 1] && tail[j] == cart[j + 1];
    }
  }

  lemma {:induction false} RemoveKeepsDistinct(cart: CartState, id: ProductId)
    requires DistinctIds(cart)
    ensures DistinctIds(RemoveFromCart(cart, id))
    decreases |cart|
  {
    if cart != [] {
      TailDistinct(cart);
      RemoveKeepsDistinct(cart[1..], id);
      if cart[0].item.id != id {
        var rest := RemoveFromCart(cart[1..], id);
        assert !HasId(rest, cart[0].item.id);
        ConsDistinct(cart[0], rest);
      }
    }
  }

  /** Removal distributes over concatenation: the kept lines stay in their original order. */
  lemma {:induction false} RemoveDistributes(a: CartState, b: CartState, id: ProductId)
    ensures RemoveFromCart(a + b, id) == RemoveFromCart(a, id) + RemoveFromCart(b, id)
    decreases |a|
  {
    if a == [] {
      assert a + b == b;
    } else {
      assert (a + b)[0] == a[0];
      assert (a + b)[1..] == a[1..] + b;
      RemoveDistributes(a[1..], b, id);
    }
  }

  /** In a cart with distinct ids, removing the id of line k deletes exactly that
      line and keeps the others in order. */
  lemma RemoveExistingDeletesOneLine(cart: CartState, id: ProductId, k: nat)
    requires DistinctIds(cart)
    requires k < |cart| && cart[k].item.id == id
    ensures RemoveFromCart(cart, id) == cart[..k] + cart[k + 1..]
  {
    var before, after := cart[..k], cart[k + 1..];
    assert cart == before + ([cart[k]] + after);
    assert !HasId(before, id) by {
      forall i | 0 <= i < |before| ensures before[i].item.id != id {
        assert before[i] == cart[i];
      }
    }
    assert !HasId(after, id) by {
      forall i | 0 <= i < |after| ensures after[i].item.id != id {
        assert after[i] == cart[k + 1 + i];
      }
    }
    RemoveDistributes(before, [cart[k]] + after, id);
    RemoveDistributes([cart[k]], after, id);
    assert RemoveFromCart([cart[k]], id) == [];
  }

  /** Adding a product whose id is not in the cart and then removing that id
      restores the original cart. */
  lemma AddThenRemoveRestores(cart: CartState, product: Product)
    requires !HasId(cart, product.id)
    ensures RemoveFromCart(AddToCart(cart, product), product.id) == cart
  {
    var r := AddToCart(cart, product);
    assert r == cart + [Line(product, 1)] by {
      assert r == r[..|cart|] + [r[|cart|]];
    }
    RemoveDistributes(cart, [Line(product, 1)], product.id);
    assert RemoveFromCart([Line(product, 1)], product.id) == [];
  }

  /** Two adds from the empty cart: the same id gives one line with quantity 2
      (keeping the first product's fields), different ids give two lines with
      quantity 1 in call order. */
  lemma TwoAdds(p1: Product, p2: Product)
    ensures p1.id == p2.id ==> AddToCart(AddToCart([], p1), p2) == [Line(p1, 2)]
    ensures p1.id != p2.id ==> AddToCart(AddToCart([], p1), p2) == [Line(p1, 1), Line(p2, 1)]
  {
    var once := AddToCart([], p1);
    assert once == [Line(p1, 1)];
    if p1.id == p2.id {
      assert HasId(once, p2.id) by { assert once[0].item.id == p2.id; }
    } else {
      assert !HasId(once, p2.id);
    }
  }

  lemma ClearIdempotent(cart: CartState)
    ensures ClearCart(ClearCart(cart)) == ClearCart(cart) == []
  {
  }
}
