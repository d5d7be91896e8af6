/** The text form of the cart kept in durable storage: JSON.stringify of an array
    of line objects, and the JSON.parse that reads it back, restricted to that shape
    (src/contexts/cart/CartProvider.jsx, the save effect and loadCartFromStorage).

    The serialiser is written with a continuation: `LineThen(l, rest)` is the JSON
    text of `l` followed by `rest`, so that each parser step can be matched against
    exactly one serialiser step. */
module CartJson {
  import opened Wrappers
  import opened Decimal
  import opened Cart

  // Member names in the order the object spread `{...product, qty}` lays them out.
  const IdKey := "{\"id\":"
  const NameKey := ",\"name\":"
  const DescriptionKey := ",\"description\":"
  const CategoryKey := ",\"category\":"
  const PriceKey := ",\"price\":"
  const ImageKey := ",\"image\":"
  const QtyKey := ",\"qty\":"

  predicate IsHexDigit(c: char) {
    '0' <= c <= '9' || 'a' <= c <= 'f' || 'A' <= c <= 'F'
  }

  function HexValue(c: char): (d: nat)
    requires IsHexDigit(c)
    ensures d < 16
  {
    if '0' <= c <= '9' then c as int - '0' as int
    else if 'a' <= c <= 'f' then c as int - 'a' as int + 10
    else c as int - 'A' as int + 10
  }

  /** Lower-case hex digit, as JSON.stringify writes in a \u escape */
  function HexDigit(d: nat): (c: char)
    requires d < 16
    ensures IsHexDigit(c) && HexValue(c) == d
  {
    if d < 10 then ('0' as int + d) as char else ('a' as int + d - 10) as char
  }

  // ---------------------------------------------------------------------------
  // Serialiser
  // ---------------------------------------------------------------------------

  /** How JSON.stringify writes one character inside a string literal: the quote,
      the backslash and the control characters are escaped, everything else is kept. */
  function EscapeChar(c: char): (e: string)
    ensures c as int >= 0x20 && c != '"' && c != '\\' <==> e == [c]
  {
    if c == '"' then ['\\', '"']
    else if c == '\\' then ['\\', '\\']
    else if c as int == 8 then ['\\', 'b']
    else if c as int == 9 then ['\\', 't']
    else if c as int == 10 then ['\\', 'n']
    else if c as int == 12 then ['\\', 'f']
    else if c as int == 13 then ['\\', 'r']
    else if c as int < 0x20 then ['\\', 'u', '0', '0', HexDigit(c as int / 16), HexDigit(c as int % 16)]
    else [c]
  }

  /** The escaped characters of s, followed by rest */
  function EscapeThen(s: string, rest: string): (r: string)
  {
    if s == [] then rest else EscapeChar(s[0]) + EscapeThen(s[1..], rest)
  }

  /** The JSON string literal for s, followed by rest */
  function StringThen(s: string, rest: string): (r: string)
  {
    "\"" + EscapeThen(s, "\"" + rest)
  }

  /** The JSON number for n, followed by rest */
  function NatThen(n: nat, rest: string): (r: string)
  {
    NatToString(n) + rest
  }

  /** The JSON object for a line, followed by rest */
  function LineThen(l: Line, rest: string): (r: string)
  {
    IdKey + NatThen(l.item.id,
    NameKey + StringThen(l.item.name,
    DescriptionKey + StringThen(l.item.description,
    CategoryKey + StringThen(l.item.category,
    PriceKey + NatThen(l.item.price,
    ImageKey + StringThen(l.item.image,
    QtyKey + NatThen(l.qty, "}" + rest)))))))
  }

  /** Each line of ls preceded by a comma, followed by rest */
  function LinesThen(ls: seq<Line>, rest: string): (r: string)
  {
    if ls == [] then rest else "," + LineThen(ls[0], LinesThen(ls[1..], rest))
  }

  /** JSON.stringify(cart) */
  function SerializeCart(cart: CartState): (text: string)
    ensures |text| >= 2 && text[0] == '['
  {
    if cart == [] then "[]" else "[" + LineThen(cart[0], LinesThen(cart[1..], "]"))
  }

  // ---------------------------------------------------------------------------
  // Parser
  // ---------------------------------------------------------------------------

  /** t is what is left of s once some characters have been read from its front */
  predicate IsRest(t: string, s: string) {
    |t| <= |s| && t == s[|s| - |t|..]
  }

  lemma RestOfRest(a: string, b: string, c: string)
    requires IsRest(a, b) && IsRest(b, c)
    ensures IsRest(a, c)
  {
    assert c[|c| - |a|..] == c[|c| - |b|..][|b| - |a|..];
  }

  /** The text after lit, if s starts with lit */
  function ParseLiteral(lit: string, s: string): (r: Option<string>)
    ensures r.Some? <==> |lit| <= |s| && s[..|lit|] == lit
    ensures r.Some? ==> s == lit + r.value && IsRest(r.value, s)
  {
    if |lit| <= |s| && s[..|lit|] == lit then Some(s[|lit|..]) else None
  }

  /** The length of the longest prefix of s made of digits */
  function DigitRun(s: string): (k: nat)
    ensures k <= |s| && AllDigits(s[..k])
    ensures k < |s| ==> !IsDigit(s[k])
  {
    if s == [] || !IsDigit(s[0]) then 0
    else
      var k := 1 + DigitRun(s[1..]);
      assert s[..k] == [s[0]] + s[1..][..k - 1];
      k
  }

  /** A non-negative JSON integer: one or more digits, no leading zero */
  function ParseNat(s: string): (r: Option<(nat, string)>)
    ensures r.Some? ==>
      var k := |s| - |r.value.1|;
      && 0 < k <= |s|
      && AllDigits(s[..k])
      && (k > 1 ==> s[0] != '0')
      && DigitsValue(s[..k]) == r.value.0
      && r.value.1 == s[k..]
      && (r.value.1 == [] || !IsDigit(r.value.1[0]))
  {
    var k := DigitRun(s);
    if k == 0 || (k > 1 && s[0] == '0') then None
    else Some((DigitsValue(s[..k]), s[k..]))
  }

  /** The character an escape sequence (after its backslash) denotes */
  function ParseEscape(s: string): (r: Option<(char, string)>)
    ensures r.Some? ==> |r.value.1| < |s| && IsRest(r.value.1, s)
  {
    if s == [] then None
    else if s[0] == '"' || s[0] == '\\' || s[0] == '/' then Some((s[0], s[1..]))
    else if s[0] == 'b' then Some((8 as char, s[1..]))
    else if s[0] == 't' then Some((9 as char, s[1..]))
    else if s[0] == 'n' then Some((10 as char, s[1..]))
    else if s[0] == 'f' then Some((12 as char, s[1..]))
    else if s[0] == 'r' then Some((13 as char, s[1..]))
    else if s[0] == 'u' && |s| >= 5
      && IsHexDigit(s[1]) && IsHexDigit(s[2]) && IsHexDigit(s[3]) && IsHexDigit(s[4]) then
      var code := HexValue(s[1]) * 4096 + HexValue(s[2]) * 256 + HexValue(s[3]) * 16 + HexValue(s[4]);
      // a lone surrogate code unit is not a character of this model
      if 0xD800 <= code < 0xE000 then None else Some((code as char, s[5..]))
    else None
  }

  /** The characters of a string literal up to its closing quote, and the text after it */
  function ParseStringBody(s: string): (r: Option<(string, string)>)
    ensures r.Some? ==> |r.value.1| < |s| && IsRest(r.value.1, s)
    decreases |s|
  {
    if s == [] then None
    else if s[0] == '"' then Some(([], s[1..]))
    else if s[0] == '\\' then
      var e :- ParseEscape(s[1..]);
      var t :- ParseStringBody(e.1);
      RestOfRest(e.1, s[1..], s);
      RestOfRest(t.1, e.1, s);
      Some(([e.0] + t.0, t.1))
    else if s[0] as int < 0x20 then None
    else
      var t :- ParseStringBody(s[1..]);
      RestOfRest(t.1, s[1..], s);
      Some(([s[0]] + t.0, t.1))
  }

  function ParseString(s: string): (r: Option<(string, string)>)
    ensures r.Some? ==> |r.value.1| < |s| && IsRest(r.value.1, s)
  {
    var body :- ParseLiteral("\"", s);
    var r :- ParseStringBody(body);
    RestOfRest(r.1, body, s);
    Some(r)
  }

  /** A member whose value is a number: its key, then the number */
  function ParseNatMember(key: string, s: string): (r: Option<(nat, string)>)
    ensures r.Some? ==> |r.value.1| < |s| && IsRest(r.value.1, s)
  {
    var v :- ParseLiteral(key, s);
    var n :- ParseNat(v);
    RestOfRest(n.1, v, s);
    Some(n)
  }

  /** A member whose value is a string: its key, then the string literal */
  function ParseStringMember(key: string, s: string): (r: Option<(string, string)>)
    ensures r.Some? ==> |r.value.1| < |s| && IsRest(r.value.1, s)
  {
    var v :- ParseLiteral(key, s);
    var t :- ParseString(v);
    RestOfRest(t.1, v, s);
    Some(t)
  }

  /** The three text members after the id: name, description and category */
  function ParseTextMembers(s: string): (r: Option<((string, string, string), string)>)
    ensures r.Some? ==> |r.value.1| < |s| && IsRest(r.value.1, s)
  {
    var name :- ParseStringMember(NameKey, s);
    var description :- ParseStringMember(DescriptionKey, name.1);
    var category :- ParseStringMember(CategoryKey, description.1);
    RestOfRest(description.1, name.1, s);
    RestOfRest(category.1, description.1, s);
    Some(((name.0, description.0, category.0), category.1))
  }

  /** The members the object spread copies from the product, "id" through "image" */
  function ParseProductMembers(s: string): (r: Option<(Product, string)>)
    ensures r.Some? ==> |r.value.1| < |s| && IsRest(r.value.1, s) && s[0] == '{'
  {
    var id :- ParseNatMember(IdKey, s);
    var text :- ParseTextMembers(id.1);
    var price :- ParseNatMember(PriceKey, text.1);
    var image :- ParseStringMember(ImageKey, price.1);
    RestOfRest(text.1, id.1, s);
    RestOfRest(price.1, text.1, s);
    RestOfRest(image.1, price.1, s);
    Some((Product(id.0, text.0.0, text.0.1, text.0.2, price.0, image.0), image.1))
  }

  /** One line object: the product's members, then "qty", then the closing brace */
  function ParseLine(s: string): (r: Option<(Line, string)>)
    ensures r.Some? ==> |r.value.1| < |s| && IsRest(r.value.1, s) && s[0] == '{'
  {
    var product :- ParseProductMembers(s);
    var qty :- ParseNatMember(QtyKey, product.1);
    var close :- ParseLiteral("}", qty.1);
    RestOfRest(qty.1, product.1, s);
    RestOfRest(close, qty.1, s);
    Some((Line(product.0, qty.0), close))
  }

  /** Comma-separated further lines, up to the first text that does not start with a comma */
  function ParseMoreLines(s: string): (r: Option<(seq<Line>, string)>)
    ensures r.Some? ==> IsRest(r.value.1, s)
    ensures r.Some? ==> r.value.1 == [] || r.value.1[0] != ','
    decreases |s|
  {
    if |s| > 0 && s[0] == ',' then
      var line :- ParseLine(s[1..]);
      var more :- ParseMoreLines(line.1);
      RestOfRest(line.1, s[1..], s);
      RestOfRest(more.1, line.1, s);
      Some(([line.0] + more.0, more.1))
    else Some(([], s))
  }

  /** The contents of an array after its opening bracket, up to and including the
      closing bracket, which must end the text */
  function ParseItems(s: string): (r: Option<CartState>)
    ensures r.Some? ==> |s| >= 1 && s[|s| - 1] == ']'
    ensures r == Some([]) <==> s == "]"
  {
    if s == "]" then Some([])
    else
      var first :- ParseLine(s);
      var more :- ParseMoreLines(first.1);
      if more.1 == "]" then
        RestOfRest(more.1, first.1, s);
        Some([first.0] + more.0)
      else None
  }

  /** JSON.parse of the stored text, when it is an array of line objects; None when
      the text is rejected. An accepted text is bracketed, and it denotes the empty
      cart exactly when it is "[]". */
  function ParseCart(s: string): (r: Option<CartState>)
    ensures r.Some? ==> |s| >= 2 && s[0] == '[' && s[|s| - 1] == ']'
    ensures r == Some([]) <==> s == "[]"
  {
    var body :- ParseLiteral("[", s);
    ParseItems(body)
  }
}
