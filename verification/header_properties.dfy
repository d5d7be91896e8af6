/** How the header's derived values and dropdown follow the cart operations
    (src/components/Header.jsx over src/contexts/cart/CartProvider.jsx). */
module HeaderProperties {
  import opened Wrappers
  import opened Decimal
  import opened Cart
  import opened CartProperties
  import opened Header

  /** The item count is additive over concatenation of line sequences. */
  lemma {:induction false} ItemCountAppend(a: CartState, b: CartState)
    ensures ItemCount(a + b) == ItemCount(a) + ItemCount(b)
    decreases |a|
  {
    if a == [] {
      assert a + b == b;
    } else {
      assert (a + b)[0] == a[0];
      assert (a + b)[1..] == a[1..] + b;
      ItemCountAppend(a[1..], b);
    }
  }

  /** The total is additive over concatenation of line sequences. */
  lemma {:induction false} TotalCentsAppend(a: CartState, b: CartState)
    ensures TotalCents(a + b) == TotalCents(a) + TotalCents(b)
    decreases |a|
  {
    if a == [] {
      assert a + b == b;
    } else {
      assert (a + b)[0] == a[0];
      assert (a + b)[1..] == a[1..] + b;
      TotalCentsAppend(a[1..], b);
    }
  }

  /** The count splits around any line. */
  lemma {:induction false} CountSplit(a: CartState, k: nat)
    requires k < |a|
    ensures ItemCount(a) == ItemCount(a[..k]) + a[k].qty + ItemCount(a[k + 1..])
    decreases k
  {
    if k > 0 {
      var t := a[1..];
      assert t[..k - 1] == a[..k][1..];
      assert t[k..] == a[k + 1..];
      assert t[k - 1] == a[k];
      CountSplit(t, k - 1);
    }
  }

  /** The total splits around any line. */
  lemma {:induction false} TotalSplit(a: CartState, k: nat)
    requires k < |a|
    ensures TotalCents(a) == TotalCents(a[..k]) + LineCents(a[k]) + TotalCents(a[k + 1..])
    decreases k
  {
    if k > 0 {
      var t := a[1..];
      assert t[..k - 1] == a[..k][1..];
      assert t[k..] == a[k + 1..];
      assert t[k - 1] == a[k];
      TotalSplit(t, k - 1);
    }
  }

  /** Raising one line's quantity by one raises the count by one and the total by
      that line's price. */
  lemma BumpOneLine(a: CartState, b: CartState, k: nat)
    requires |a| == |b| && k < |a|
    requires b[k] == Line(a[k].item, a[k].qty + 1)
    requires forall i :: 0 <= i < |a| && i != k ==> b[i] == a[i]
    ensures ItemCount(b) == ItemCount(a) + 1
    ensures TotalCents(b) == TotalCents(a) + a[k].item.price
  {
    SameOutside(a, b, k);
    BumpCount(a, b, k);
    BumpTotal(a, b, k);
  }

  lemma BumpCount(a: CartState, b: CartState, k: nat)
    requires |a| == |b| && k < |a|
    requires b[k].qty == a[k].qty + 1
    requires a[..k] == b[..k] && a[k + 1..] == b[k + 1..]
    ensures ItemCount(b) == ItemCount(a) + 1
  {
    CountSplit(a, k);
    CountSplit(b, k);
  }

  lemma BumpTotal(a: CartState, b: CartState, k: nat)
    requires |a| == |b| && k < |a|
    requires b[k] == Line(a[k].item, a[k].qty + 1)
    requires a[..k] == b[..k] && a[k + 1..] == b[k + 1..]
    ensures TotalCents(b) == TotalCents(a) + a[k].item.price
  {
    TotalSplit(a, k);
    TotalSplit(b, k);
    LineCentsSucc(a[k]);
  }

  lemma SameOutside(a: CartState, b: CartState, k: nat)
    requires |a| == |b| && k < |a|
    requires forall i :: 0 <= i < |a| && i != k ==> b[i] == a[i]
    ensures a[..k] == b[..k] && a[k + 1..] == b[k + 1..]
  {
    var restA, restB := a[k + 1..], b[k + 1..];
    forall i | 0 <= i < |restA| ensures restA[i] == restB[i] {
      assert restA[i] == a[k + 1 + i];
    }
  }

  lemma LineCentsSucc(l: Line)
    ensures LineCents(Line(l.item, l.qty + 1)) == LineCents(l) + l.item.price
  {
    assert l.item.price * (l.qty + 1) == l.item.price * l.qty + l.item.price;
  }

  /** The count and total of a line followed by more lines */
  lemma ConsSums(head: Line, rest: CartState)
    ensures ItemCount([head] + rest) == head.qty + ItemCount(rest)
    ensures TotalCents([head] + rest) == LineCents(head) + TotalCents(rest)
  {
    assert ([head] + rest)[1..] == rest;
  }

  /** Every add raises the item count by exactly one. */
  lemma AddRaisesCountByOne(cart: CartState, product: Product)
    requires DistinctIds(cart)
    ensures ItemCount(AddToCart(cart, product)) == ItemCount(cart) + 1
  {
    match FindIndex(cart, product.id)
    case Some(k) =>
      AddExistingIncrementsOneLine(cart, product, k);
      BumpOneLine(cart, AddToCart(cart, product), k);
    case None =>
      var r := AddToCart(cart, product);
      assert r == cart + [Line(product, 1)] by { assert r == r[..|cart|] + [r[|cart|]]; }
      ItemCountAppend(cart, [Line(product, 1)]);
  }

  /** An add raises the total by the price of one unit: the price stored on the
      existing line when the id is already in the cart, the product's price otherwise. */
  lemma AddRaisesTotalByStoredPrice(cart: CartState, product: Product)
    requires DistinctIds(cart)
    ensures FindIndex(cart, product.id).Some? ==>
      TotalCents(AddToCart(cart, product)) ==
        TotalCents(cart) + cart[FindIndex(cart, product.id).value].item.price
    ensures FindIndex(cart, product.id).None? ==>
      TotalCents(AddToCart(cart, product)) == TotalCents(cart) + product.price
  {
    match FindIndex(cart, product.id)
    case Some(k) =>
      AddExistingIncrementsOneLine(cart, product, k);
      BumpOneLine(cart, AddToCart(cart, product), k);
    case None =>
      var r := AddToCart(cart, product);
      assert r == cart + [Line(product, 1)] by { assert r == r[..|cart|] + [r[|cart|]]; }
      TotalCentsAppend(cart, [Line(product, 1)]);
  }

  /** Removing the id of line k of a cart with distinct ids lowers the item count
      by that line's quantity. (An absent id leaves the cart, and so the count,
      unchanged.) */
  lemma RemoveLowersCount(cart: CartState, id: ProductId, k: nat)
    requires DistinctIds(cart)
    requires k < |cart| && cart[k].item.id == id
    ensures ItemCount(RemoveFromCart(cart, id)) + cart[k].qty == ItemCount(cart)
  {
    RemoveExistingDeletesOneLine(cart, id, k);
    CountWithoutLine(cart, k);
  }

  lemma CountWithoutLine(cart: CartState, k: nat)
    requires k < |cart|
    ensures ItemCount(cart[..k] + cart[k + 1..]) + cart[k].qty == ItemCount(cart)
  {
    CountSplit(cart, k);
    ItemCountAppend(cart[..k], cart[k + 1..]);
  }

  /** Only one text meets IsAmountText for a given amount, so the contract of
      FormatCents fixes its result: the whole part is the shortest decimal form of
      cents / 100 and the two digits are cents % 100. */
  lemma CentsDigits(whole: nat, tens: nat, ones: nat)
    requires tens < 10 && ones < 10
    ensures var cents := whole * 100 + tens * 10 + ones;
      cents / 100 == whole && cents % 100 / 10 == tens && cents % 10 == ones
  {
    var cents := whole * 100 + tens * 10 + ones;
    assert cents == (whole * 10 + tens) * 10 + ones;
  }

  lemma AmountTextUnique(text: string, cents: nat)
    requires IsAmountText(text, cents)
    ensures text == FormatCents(cents)
  {
    var whole := text[..|text| - 3];
    var fraction := text[|text| - 2..];
    assert |fraction| == 2;
    var tens, ones := DigitValue(fraction[0]), DigitValue(fraction[1]);
    assert fraction == [DigitChar(tens), DigitChar(ones)];
    TwoDigitsValue(tens, ones);
    CentsDigits(DigitsValue(whole), tens, ones);
    assert whole[0] == text[0];
    CanonicalDigits(whole);
    assert text == whole + "." + fraction;
  }

  /** Clearing gives a count of 0 and a total of "0.00". */
  lemma ClearGivesZero(cart: CartState)
    ensures ItemCount(ClearCart(cart)) == 0
    ensures CalculateTotalPrice(ClearCart(cart)) == "0.00"
  {
  }

  /** With every quantity at least 1, the count is at least the number of lines. */
  lemma {:induction false} CountAtLeastLines(cart: CartState)
    requires PositiveQuantities(cart)
    ensures ItemCount(cart) >= |cart|
    decreases |cart|
  {
    if cart != [] {
      assert PositiveQuantities(cart[1..]) by {
        forall i | 0 <= i < |cart[1..]| ensures cart[1..][i].qty >= 1 {
          assert cart[1..][i] == cart[i + 1];
        }
      }
      CountAtLeastLines(cart[1..]);
    }
  }

  /** For a cart kept by the store, the badge is shown exactly when the cart has a line. */
  lemma BadgeShownIffNonEmpty(cart: CartState)
    requires WellFormed(cart)
    ensures BadgeLabel(ItemCount(cart)).Some? <==> cart != []
  {
    CountAtLeastLines(cart);
  }

  /** Removing a line that is in a cart kept by the store hides the dropdown exactly
      when the cart becomes empty; otherwise visibility is unchanged. */
  lemma RemoveClosesExactlyWhenEmptied(s: HeaderState, id: ProductId)
    requires WellFormed(s.cart) && HasId(s.cart, id)
    ensures var r := HandleRemoveItem(s, id);
      (r.cart == [] ==> !r.showDropdown) &&
      (r.cart != [] ==> r.showDropdown == s.showDropdown)
  {
    var r := HandleRemoveItem(s, id);
    var k :| 0 <= k < |s.cart| && s.cart[k].item.id == id;
    if |s.cart| == 1 {
      assert !r.showDropdown;
    } else {
      var j := if k == 0 then 1 else 0;
      assert s.cart[j].item.id != id by {
        if j < k { assert s.cart[j].item.id != s.cart[k].item.id; }
        else { assert s.cart[k].item.id != s.cart[j].item.id; }
      }
      var x := s.cart[j];
      assert x in multiset(s.cart);
      assert multiset(r.cart)[x] == multiset(s.cart)[x] > 0;
      assert r.cart != [];
    }
  }

  /** RemoveClosesExactlyWhenEmptied needs the store invariant. A cart with two lines
      for one product (stored text loads as any cart, by CartStorage.LoadAfterSave) is
      emptied by removing that id, yet the dropdown stays open, because the rendered
      cart had two lines. */
  lemma DuplicateLinesRemoveLeavesOpen(p: Product)
    ensures var cart := [Line(p, 1), Line(p, 2)];
      var r := HandleRemoveItem(HeaderState(cart, true), p.id);
      && !WellFormed(cart)
      && r.cart == []
      && r.showDropdown
  {
    var cart := [Line(p, 1), Line(p, 2)];
    assert cart[0].item.id == cart[1].item.id;
    assert RemoveFromCart(cart, p.id) == [];
  }

  /** The events the header's state reacts to: an add from a product card, and the
      header's own remove, clear, toggle and close. */
  datatype Event =
    | Add(product: Product)
    | Remove(id: ProductId)
    | Clear
    | Toggle
    | Close

  function Step(s: HeaderState, e: Event): HeaderState {
    match e
    case Add(p) => s.(cart := AddToCart(s.cart, p))
    case Remove(id) => HandleRemoveItem(s, id)
    case Clear => HandleClearCart(s)
    case Toggle => ToggleDropdown(s)
    case Close => CloseDropdown(s)
  }

  /** Every event keeps the store invariant: ids distinct and quantities at least 1. */
  lemma StepPreservesWellFormed(s: HeaderState, e: Event)
    requires WellFormed(s.cart)
    ensures WellFormed(Step(s, e).cart)
  {
    match e
    case Add(p) => AddPreservesWellFormed(s.cart, p);
    case Remove(id) => RemovePreservesWellFormed(s.cart, id);
    case Clear =>
    case Toggle =>
    case Close =>
  }

  /** The worked example: two adds of the same product at 9.50 and one of another
      at 20.00 give three items and a total of "39.00". */
  lemma ThreeAddsExample()
    ensures
      var p1 := Product(1, "A", "", "", 950, "");
      var p2 := Product(2, "B", "", "", 2000, "");
      var cart := AddToCart(AddToCart(AddToCart([], p1), p1), p2);
      ItemCount(cart) == 3 && CalculateTotalPrice(cart) == "39.00"
  {
    var p1 := Product(1, "A", "", "", 950, "");
    var p2 := Product(2, "B", "", "", 2000, "");
    TwoAdds(p1, p1);
    var two := AddToCart(AddToCart([], p1), p1);
    assert !HasId(two, 2);
    var cart := AddToCart(two, p2);
    assert cart == [Line(p1, 2), Line(p2, 1)] by {
      assert cart == cart[..1] + [cart[1]];
    }
    ConsSums(Line(p1, 2), [Line(p2, 1)]);
    ConsSums(Line(p2, 1), []);
    assert TotalCents(cart) == 3900;
    FormatExample();
  }

  lemma FormatExample()
    ensures FormatCents(3900) == "39.00"
  {
    assert DigitChar(3) == '3' && DigitChar(9) == '9' && DigitChar(0) == '0';
    assert NatToString(3) == "3";
    assert NatToString(39) == NatToString(3) + "9";
  }
}
