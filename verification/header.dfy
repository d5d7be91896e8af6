/** The values the header derives from the cart, and its dropdown
    (src/components/Header.jsx). */
module Header {
  import opened Wrappers
  import opened Decimal
  import opened Cart

  // ---------------------------------------------------------------------------
  // Derived values
  // ---------------------------------------------------------------------------

  /** calculateItemCount: the sum of the quantities */
  function ItemCount(cart: CartState): (count: nat)
    ensures cart == [] ==> count == 0
    ensures |cart| == 1 ==> count == cart[0].qty
    ensures cart != [] ==> count >= cart[0].qty
  {
    if cart == [] then 0 else cart[0].qty + ItemCount(cart[1..])
  }

  /** The amount a line contributes to the total, in cents */
  function LineCents(l: Line): nat {
    l.item.price * l.qty
  }

  /** The sum of price * qty, in cents */
  function TotalCents(cart: CartState): (cents: nat)
    ensures cart == [] ==> cents == 0
    ensures |cart| == 1 ==> cents == cart[0].item.price * cart[0].qty
  {
    if cart == [] then 0 else LineCents(cart[0]) + TotalCents(cart[1..])
  }

  /** text is how toFixed(2) writes an amount of `cents` hundredths: the whole
      units without a leading zero, a point, and exactly two digits. */
  predicate IsAmountText(text: string, cents: nat) {
    && |text| >= 4 && text[|text| - 3] == '.'
    && AllDigits(text[..|text| - 3]) && AllDigits(text[|text| - 2..])
    && (text[0] == '0' ==> |text| == 4)
    && DigitsValue(text[..|text| - 3]) * 100 + DigitsValue(text[|text| - 2..]) == cents
  }

  /** toFixed(2) of an amount held in cents */
  function FormatCents(cents: nat): (text: string)
    ensures IsAmountText(text, cents)
    ensures forall i :: 0 <= i < |text| && text[i] == '.' ==> i == |text| - 3
  {
    var tens, ones := cents % 100 / 10, cents % 10;
    var units := NatToString(cents / 100);
    var fraction := [DigitChar(tens), DigitChar(ones)];
    var text := units + "." + fraction;
    assert text[..|text| - 3] == units;
    assert text[|text| - 2..] == fraction;
    TwoDigitsValue(tens, ones);
    assert tens * 10 + ones == cents % 100;
    assert forall i :: 0 <= i < |units| ==> text[i] == units[i];
    text
  }

  /** calculateTotalPrice */
  function CalculateTotalPrice(cart: CartState): (text: string)
    ensures IsAmountText(text, TotalCents(cart))
    ensures cart == [] ==> text == "0.00"
  {
    FormatCents(TotalCents(cart))
  }

  /** The badge on the cart button: absent for an empty count, "9+" above nine,
      otherwise the count written out. */
  function BadgeLabel(count: nat): (badge: Option<string>)
    ensures badge.Some? <==> count > 0
    ensures badge == Some("9+") <==> count > 9
    ensures 0 < count <= 9 ==>
      badge.Some? && |badge.value| == 1 && IsDigit(badge.value[0]) && DigitValue(badge.value[0]) == count
  {
    if count > 0 then Some(if count > 9 then "9+" else NatToString(count)) else None
  }

  /** The word after the count in the dropdown heading */
  function ItemWord(count: nat): (word: string)
    ensures word == "item" <==> count == 1
    ensures word == "item" || word == "items"
  {
    if count == 1 then "item" else "items"
  }

  // ---------------------------------------------------------------------------
  // Dropdown
  // ---------------------------------------------------------------------------

  /** The cart the header reads and whether its dropdown is shown */
  datatype HeaderState = HeaderState(cart: CartState, showDropdown: bool)

  /** The header starts with the dropdown hidden. */
  function InitialHeader(cart: CartState): (s: HeaderState)
    ensures s.cart == cart && !s.showDropdown
  {
    HeaderState(cart, false)
  }

  /** The cart button flips the dropdown. */
  function ToggleDropdown(s: HeaderState): (r: HeaderState)
    ensures r.cart == s.cart && r.showDropdown != s.showDropdown
  {
    s.(showDropdown := !s.showDropdown)
  }

  /** closeDropdown: the backdrop and the close button hide the dropdown. */
  function CloseDropdown(s: HeaderState): (r: HeaderState)
    ensures r.cart == s.cart && !r.showDropdown
  {
    s.(showDropdown := false)
  }

  /** handleRemoveItem: remove the line, and hide the dropdown when the cart it
      rendered held a single line. */
  function HandleRemoveItem(s: HeaderState, id: ProductId): (r: HeaderState)
    ensures r.cart == RemoveFromCart(s.cart, id)
    ensures |s.cart| == 1 ==> !r.showDropdown
    ensures |s.cart| != 1 ==> r.showDropdown == s.showDropdown
  {
    var next := HeaderState(RemoveFromCart(s.cart, id), s.showDropdown);
    if |s.cart| == 1 then CloseDropdown(next) else next
  }

  /** handleClearCart: empty the cart and hide the dropdown. */
  function HandleClearCart(s: HeaderState): (r: HeaderState)
    ensures r.cart == [] && !r.showDropdown
    ensures ItemCount(r.cart) == 0 && BadgeLabel(ItemCount(r.cart)) == None
  {
    CloseDropdown(HeaderState(ClearCart(s.cart), s.showDropdown))
  }
}
