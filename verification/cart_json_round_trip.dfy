/** Parsing what the save step serialised gives back the same cart. */
module CartJsonRoundTrip {
  import opened Wrappers
  import opened Decimal
  import opened Cart
  import opened CartJson

  lemma LiteralRoundTrip(lit: string, rest: string)
    ensures ParseLiteral(lit, lit + rest) == Some(rest)
  {
    assert (lit + rest)[..|lit|] == lit;
    assert (lit + rest)[|lit|..] == rest;
  }

  lemma {:induction false} DigitRunOfDigits(d: string, rest: string)
    requires AllDigits(d)
    requires rest == [] || !IsDigit(rest[0])
    ensures DigitRun(d + rest) == |d|
    decreases |d|
  {
    if d == [] {
      assert d + rest == rest;
    } else {
      assert (d + rest)[0] == d[0];
      assert (d + rest)[1..] == d[1..] + rest;
      DigitRunOfDigits(d[1..], rest);
    }
  }

  lemma NatRoundTrip(n: nat, rest: string)
    requires rest == [] || !IsDigit(rest[0])
    ensures ParseNat(NatThen(n, rest)) == Some((n, rest))
  {
    var d := NatToString(n);
    DigitRunOfDigits(d, rest);
    assert (d + rest)[..|d|] == d;
    assert (d + rest)[|d|..] == rest;
  }

  /** One escaped character is read back as that character, whatever follows it. */
  lemma EscapeCharRoundTrip(c: char, more: string)
    ensures ParseStringBody(EscapeChar(c) + more) ==
      (match ParseStringBody(more)
       case None => None
       case Some(t) => Some(([c] + t.0, t.1)))
  {
    var s := EscapeChar(c) + more;
    if c as int >= 0x20 && c != '"' && c != '\\' {
      assert s[0] == c && s[1..] == more;
    } else {
      assert s[0] == '\\';
      var e := s[1..];
      if c as int < 0x20 && c as int !in {8, 9, 10, 12, 13} {
        var h1 := HexDigit(c as int / 16);
        var h2 := HexDigit(c as int % 16);
        assert e == ['u', '0', '0', h1, h2] + more;
        assert e[5..] == more;
        assert ParseEscape(e) == Some((c, more));
      } else {
        assert e[1..] == more;
        assert ParseEscape(e) == Some((c, more));
      }
    }
  }

  lemma {:induction false} StringBodyRoundTrip(s: string, rest: string)
    ensures ParseStringBody(EscapeThen(s, "\"" + rest)) == Some((s, rest))
    decreases |s|
  {
    if s == [] {
      var t := "\"" + rest;
      assert t[0] == '"' && t[1..] == rest;
    } else {
      StringBodyRoundTrip(s[1..], rest);
      EscapeCharRoundTrip(s[0], EscapeThen(s[1..], "\"" + rest));
      assert [s[0]] + s[1..] == s;
    }
  }

  lemma StringRoundTrip(s: string, rest: string)
    ensures ParseString(StringThen(s, rest)) == Some((s, rest))
  {
    LiteralRoundTrip("\"", EscapeThen(s, "\"" + rest));
    StringBodyRoundTrip(s, rest);
  }

  lemma NatMemberRoundTrip(key: string, n: nat, rest: string)
    requires rest == [] || !IsDigit(rest[0])
    ensures ParseNatMember(key, key + NatThen(n, rest)) == Some((n, rest))
  {
    LiteralRoundTrip(key, NatThen(n, rest));
    NatRoundTrip(n, rest);
  }

  lemma StringMemberRoundTrip(key: string, text: string, rest: string)
    ensures ParseStringMember(key, key + StringThen(text, rest)) == Some((text, rest))
  {
    LiteralRoundTrip(key, StringThen(text, rest));
    StringRoundTrip(text, rest);
  }

  lemma TextMembersRoundTrip(p: Product, rest: string)
    ensures ParseTextMembers(NameKey + StringThen(p.name,
              DescriptionKey + StringThen(p.description,
              CategoryKey + StringThen(p.category, rest))))
            == Some(((p.name, p.description, p.category), rest))
  {
    var t2 := CategoryKey + StringThen(p.category, rest);
    var t1 := DescriptionKey + StringThen(p.description, t2);
    StringMemberRoundTrip(NameKey, p.name, t1);
    StringMemberRoundTrip(DescriptionKey, p.description, t2);
    StringMemberRoundTrip(CategoryKey, p.category, rest);
  }

  lemma ProductMembersRoundTrip(p: Product, rest: string)
    ensures ParseProductMembers(IdKey + NatThen(p.id,
              NameKey + StringThen(p.name,
              DescriptionKey + StringThen(p.description,
              CategoryKey + StringThen(p.category,
              PriceKey + NatThen(p.price,
              ImageKey + StringThen(p.image, rest)))))))
            == Some((p, rest))
  {
    var t5 := ImageKey + StringThen(p.image, rest);
    var t4 := PriceKey + NatThen(p.price, t5);
    var t1 := NameKey + StringThen(p.name,
              DescriptionKey + StringThen(p.description,
              CategoryKey + StringThen(p.category, t4)));
    NatMemberRoundTrip(IdKey, p.id, t1);
    TextMembersRoundTrip(p, t4);
    NatMemberRoundTrip(PriceKey, p.price, t5);
    StringMemberRoundTrip(ImageKey, p.image, rest);
  }

  lemma LineRoundTrip(l: Line, rest: string)
    ensures ParseLine(LineThen(l, rest)) == Some((l, rest))
  {
    var t7 := "}" + rest;
    var t6 := QtyKey + NatThen(l.qty, t7);
    ProductMembersRoundTrip(l.item, t6);
    NatMemberRoundTrip(QtyKey, l.qty, t7);
    LiteralRoundTrip("}", rest);
  }

  lemma {:induction false} MoreLinesRoundTrip(ls: seq<Line>, rest: string)
    requires rest == [] || rest[0] != ','
    ensures ParseMoreLines(LinesThen(ls, rest)) == Some((ls, rest))
    decreases |ls|
  {
    if ls != [] {
      var after := LinesThen(ls[1..], rest);
      var text := LinesThen(ls, rest);
      assert text == "," + LineThen(ls[0], after);
      assert text[1..] == LineThen(ls[0], after);
      LineRoundTrip(ls[0], after);
      MoreLinesRoundTrip(ls[1..], rest);
      CommaStep(text, ls, after, rest);
    }
  }

  /** One step of ParseMoreLines, stated over what ParseLine and the recursive
      call return */
  lemma CommaStep(s: string, ls: seq<Line>, after: string, rest: string)
    requires |s| > 0 && s[0] == ',' && ls != []
    requires ParseLine(s[1..]) == Some((ls[0], after))
    requires ParseMoreLines(after) == Some((ls[1..], rest))
    ensures ParseMoreLines(s) == Some((ls, rest))
  {
    HeadAndTail(ls);
  }

  /** The save/load round trip at the text level: parsing JSON.stringify(cart)
      yields the same cart, element for element. */
  lemma {:induction false} CartRoundTrip(cart: CartState)
    ensures ParseCart(SerializeCart(cart)) == Some(cart)
  {
    if cart == [] {
      LiteralRoundTrip("[", "]");
    } else {
      var body := LineThen(cart[0], LinesThen(cart[1..], "]"));
      assert SerializeCart(cart) == "[" + body;
      assert ParseItems(body) == Some(cart) by {
        ItemsRoundTrip(cart);
      }
      LiteralRoundTrip("[", body);
    }
  }

  /** The contents of a non-empty saved array, after its bracket, read back */
  lemma ItemsRoundTrip(cart: CartState)
    requires cart != []
    ensures ParseItems(LineThen(cart[0], LinesThen(cart[1..], "]"))) == Some(cart)
  {
    var after := LinesThen(cart[1..], "]");
    var body := LineThen(cart[0], after);
    LineStartsWithBrace(cart[0], after);
    LineRoundTrip(cart[0], after);
    MoreLinesRoundTrip(cart[1..], "]");
    ItemsStep(body, cart[0], cart[1..], after);
    HeadAndTail(cart);
  }

  lemma HeadAndTail<T>(s: seq<T>)
    requires s != []
    ensures [s[0]] + s[1..] == s
  {
  }

  lemma LineStartsWithBrace(l: Line, rest: string)
    ensures |LineThen(l, rest)| > 0 && LineThen(l, rest)[0] == '{'
  {
    var s := LineThen(l, rest);
    assert s == IdKey + s[|IdKey|..];
  }

  /** ParseItems on the contents of a non-empty array, stated over what its parts
      return */
  lemma ItemsStep(body: string, l: Line, ls: seq<Line>, after: string)
    requires body != "]"
    requires ParseLine(body) == Some((l, after))
    requires ParseMoreLines(after) == Some((ls, "]"))
    ensures ParseItems(body) == Some([l] + ls)
  {
  }

  /** Three sample texts the parser rejects: text that is not JSON, an array cut
      short after its bracket, and "[] ", which JSON.parse would accept but which
      this parser rejects because it reads no whitespace. */
  lemma MalformedTextRejected()
    ensures ParseCart("not json") == None
    ensures ParseCart("[") == None
    ensures ParseCart("[] ") == None
  {
  }
}
