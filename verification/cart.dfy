/** The cart store's state transitions (src/contexts/cart/CartProvider.jsx).
    Each `setCart` callback is a pure function from the current cart to the next one. */
module Cart {
  import opened Wrappers

  type ProductId = nat

  /** A catalog product; the price is in integer cents. */
  datatype Product = Product(
    id: ProductId,
    name: string,
    description: string,
    category: string,
    price: nat,
    image: string)

  /** A cart line: every field of the product it was created from, plus a quantity. */
  datatype Line = Line(item: Product, qty: nat)

  /** The cart: line items in the order their products were first added. */
  type CartState = seq<Line>

  predicate HasId(cart: CartState, id: ProductId) {
    exists i :: 0 <= i < |cart| && cart[i].item.id == id
  }

  /** At most one line per product id */
  predicate DistinctIds(cart: CartState) {
    forall i, j :: 0 <= i < j < |cart| ==> cart[i].item.id != cart[j].item.id
  }

  /** No line is kept with a quantity of zero */
  predicate PositiveQuantities(cart: CartState) {
    forall i :: 0 <= i < |cart| ==> cart[i].qty >= 1
  }

  /** The store invariant: ids pairwise distinct and every quantity at least 1 */
  predicate WellFormed(cart: CartState) {
    DistinctIds(cart) && PositiveQuantities(cart)
  }

  /** The position of the line `Array.prototype.find` returns: the first whose id matches. */
  function FindIndex(cart: CartState, id: ProductId): (r: Option<nat>)
    ensures r.None? <==> !HasId(cart, id)
    ensures r.Some? ==> r.value < |cart| && cart[r.value].item.id == id
    ensures r.Some? ==> forall j :: 0 <= j < r.value ==> cart[j].item.id != id
  {
    if cart == [] then None
    else if cart[0].item.id == id then Some(0)
    else
      match FindIndex(cart[1..], id)
      case None =>
        assert !HasId(cart, id) by {
          forall i | 0 <= i < |cart| ensures cart[i].item.id != id {
            if i > 0 { assert cart[1..][i - 1] == cart[i]; }
          }
        }
        None
      case Some(k) => Some(k + 1)
  }

  /** The `map` step of addToCart: every line whose id matches gets one more unit;
      every field other than `qty` is kept as stored. */
  function IncrementMatching(cart: CartState, id: ProductId): (r: CartState)
    ensures |r| == |cart|
    ensures forall i :: 0 <= i < |cart| ==> r[i].item == cart[i].item
    ensures forall i :: 0 <= i < |cart| ==>
      r[i].qty == if cart[i].item.id == id then cart[i].qty + 1 else cart[i].qty
  {
    if cart == [] then []
    else
      var head := if cart[0].item.id == id then cart[0].(qty := cart[0].qty + 1) else cart[0];
      [head] + IncrementMatching(cart[1..], id)
  }

  /** addToCart's update: increment the line with the product's id if there is one,
      otherwise append a new line for the product with quantity 1. */
  function AddToCart(cart: CartState, product: Product): (r: CartState)
    ensures HasId(cart, product.id) ==>
      && |r| == |cart|
      && (forall i :: 0 <= i < |cart| ==> r[i].item == cart[i].item)
      && (forall i :: 0 <= i < |cart| ==>
            r[i].qty == if cart[i].item.id == product.id then cart[i].qty + 1 else cart[i].qty)
    ensures !HasId(cart, product.id) ==>
      && |r| == |cart| + 1
      && r[..|cart|] == cart
      && r[|cart|] == Line(product, 1)
  {
    if FindIndex(cart, product.id).Some? then IncrementMatching(cart, product.id)
    else cart + [Line(product, 1)]
  }

  /** removeFromCart's update: the `filter` that keeps the lines whose id differs. */
  function RemoveFromCart(cart: CartState, id: ProductId): (r: CartState)
    ensures !HasId(r, id)
    ensures forall x :: multiset(r)[x] == if x.item.id == id then 0 else multiset(cart)[x]
    ensures forall other :: HasId(r, other) ==> HasId(cart, other)
    ensures !HasId(cart, id) ==> r == cart
    ensures |r| <= |cart|
  {
    if cart == [] then []
    else
      var rest := RemoveFromCart(cart[1..], id);
      assert cart == [cart[0]] + cart[1..];
      HasIdCons(cart[0], cart[1..]);
      if cart[0].item.id == id then rest
      else
        HasIdCons(cart[0], rest);
        [cart[0]] + rest
  }

  /** The ids of a line followed by more lines */
  lemma HasIdCons(head: Line, rest: CartState)
    ensures forall x :: HasId([head] + rest, x) <==> head.item.id == x || HasId(rest, x)
  {
    forall x ensures HasId([head] + rest, x) <==> head.item.id == x || HasId(rest, x) {
      assert ([head] + rest)[0] == head;
      if HasId(rest, x) {
        var k :| 0 <= k < |rest| && rest[k].item.id == x;
        assert ([head] + rest)[k + 1] == rest[k];
      }
      if HasId([head] + rest, x) && head.item.id != x {
        var k :| 0 <= k < |[head] + rest| && ([head] + rest)[k].item.id == x;
        assert rest[k - 1] == ([head] + rest)[k];
      }
    }
  }

  /** clearCart's update: the empty cart, whatever the current one is. */
  function ClearCart(cart: CartState): (r: CartState)
    ensures |r| == 0
    ensures WellFormed(r)
  {
    []
  }
}
