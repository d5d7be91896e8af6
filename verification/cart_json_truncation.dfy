/** A cut-off copy of stored cart text is rejected. Each parser reads its input
    from the front and looks at most one character past what it consumes, so on a
    prefix of a text it accepts it fails, runs out of text, or stops exactly where
    it stopped on the whole text; the array's closing bracket is then never read. */
module CartJsonTruncation {
  import opened Wrappers
  import opened Decimal
  import opened Cart
  import opened CartJson
  import opened CartJsonRoundTrip

  /** How a parser that left `rest` of s behaves on a prefix t of s: it fails, it
      has nothing left, or it consumed as many characters as on s. */
  predicate StopsAlike<T>(s: string, rest: string, t: string, cut: Option<(T, string)>) {
    cut.None? || cut.value.1 == [] || |t| - |cut.value.1| == |s| - |rest|
  }

  /** The part of a prefix t of s after the first |s| - |s1| characters is a prefix of s1 */
  lemma CutRest(s: string, s1: string, t: string)
    requires IsRest(s1, s) && t <= s && |s| - |s1| <= |t|
    ensures t[|s| - |s1|..] <= s1
  {
  }

  lemma LiteralCut(lit: string, s: string, t: string)
    requires ParseLiteral(lit, s).Some? && t <= s
    ensures |lit| <= |t| ==> ParseLiteral(lit, t) == Some(t[|lit|..])
    ensures |lit| > |t| ==> ParseLiteral(lit, t) == None
  {
    if |lit| <= |t| {
      assert t[..|lit|] == s[..|lit|];
    }
  }

  lemma {:induction false} DigitRunCut(s: string, t: string)
    requires t <= s
    ensures DigitRun(t) == if DigitRun(s) <= |t| then DigitRun(s) else |t|
    decreases |t|
  {
    if t != [] {
      assert t[0] == s[0];
      if IsDigit(s[0]) {
        assert t[1..] <= s[1..];
        DigitRunCut(s[1..], t[1..]);
      }
    }
  }

  lemma NatCut(s: string, t: string)
    requires ParseNat(s).Some? && t <= s
    ensures StopsAlike(s, ParseNat(s).value.1, t, ParseNat(t))
  {
    DigitRunCut(s, t);
  }

  lemma EscapeCut(s: string, t: string)
    requires ParseEscape(s).Some? && t <= s
    ensures StopsAlike(s, ParseEscape(s).value.1, t, ParseEscape(t))
  {
    if t != [] {
      assert t[0] == s[0];
    }
  }

  lemma {:induction false} StringBodyCut(s: string, t: string)
    requires ParseStringBody(s).Some? && t <= s
    ensures StopsAlike(s, ParseStringBody(s).value.1, t, ParseStringBody(t))
    decreases |s|
  {
    if t != [] {
      assert t[0] == s[0];
      if s[0] == '\\' {
        EscapeStepCut(s, t);
      } else if s[0] != '"' {
        assert t[1..] <= s[1..];
        StringBodyCut(s[1..], t[1..]);
        var b := ParseStringBody(t[1..]);
        assert ParseStringBody(t) == if b.None? then None else Some(([t[0]] + b.value.0, b.value.1));
      }
    }
  }

  /** StringBodyCut for a body that starts with an escape sequence */
  lemma {:induction false} EscapeStepCut(s: string, t: string)
    requires ParseStringBody(s).Some? && t <= s && t != [] && s[0] == '\\'
    ensures StopsAlike(s, ParseStringBody(s).value.1, t, ParseStringBody(t))
    decreases |s|, 0
  {
    var e := ParseEscape(s[1..]).value;
    assert t[1..] <= s[1..];
    EscapeCut(s[1..], t[1..]);
    var pe := ParseEscape(t[1..]);
    if pe.Some? && pe.value.1 != [] {
      var te := pe.value.1;
      CutRest(s[1..], e.1, t[1..]);
      StringBodyCut(e.1, te);
      var b := ParseStringBody(te);
      assert ParseStringBody(t) == if b.None? then None else Some(([pe.value.0] + b.value.0, b.value.1));
    } else {
      assert pe.Some? ==> ParseStringBody(pe.value.1) == None;
      assert ParseStringBody(t) == None;
    }
  }

  lemma StringCut(s: string, t: string)
    requires ParseString(s).Some? && t <= s
    ensures StopsAlike(s, ParseString(s).value.1, t, ParseString(t))
  {
    LiteralCut("\"", s, t);
    if 1 <= |t| {
      assert ParseString(s) == ParseStringBody(s[1..]);
      assert ParseString(t) == ParseStringBody(t[1..]);
      assert t[1..] <= s[1..];
      StringBodyCut(s[1..], t[1..]);
    }
  }

  lemma NatMemberCut(key: string, s: string, t: string)
    requires ParseNatMember(key, s).Some? && t <= s
    ensures StopsAlike(s, ParseNatMember(key, s).value.1, t, ParseNatMember(key, t))
  {
    LiteralCut(key, s, t);
    if |key| <= |t| {
      assert ParseNatMember(key, s) == ParseNat(s[|key|..]);
      assert ParseNatMember(key, t) == ParseNat(t[|key|..]);
      assert t[|key|..] <= s[|key|..];
      NatCut(s[|key|..], t[|key|..]);
    }
  }

  lemma StringMemberCut(key: string, s: string, t: string)
    requires ParseStringMember(key, s).Some? && t <= s
    ensures StopsAlike(s, ParseStringMember(key, s).value.1, t, ParseStringMember(key, t))
  {
    LiteralCut(key, s, t);
    if |key| <= |t| {
      assert ParseStringMember(key, s) == ParseString(s[|key|..]);
      assert ParseStringMember(key, t) == ParseString(t[|key|..]);
      assert t[|key|..] <= s[|key|..];
      StringCut(s[|key|..], t[|key|..]);
    }
  }

  lemma TextMembersCut(s: string, t: string)
    requires ParseTextMembers(s).Some? && t <= s
    ensures StopsAlike(s, ParseTextMembers(s).value.1, t, ParseTextMembers(t))
  {
    var name := ParseStringMember(NameKey, s).value;
    var description := ParseStringMember(DescriptionKey, name.1).value;
    var category := ParseStringMember(CategoryKey, description.1).value;
    assert ParseTextMembers(s).value.1 == category.1;
    RestOfRest(description.1, name.1, s);
    StringMemberCut(NameKey, s, t);
    var pn := ParseStringMember(NameKey, t);
    if pn.Some? && pn.value.1 != [] {
      var t1 := pn.value.1;
      CutRest(s, name.1, t);
      StringMemberCut(DescriptionKey, name.1, t1);
      var pd := ParseStringMember(DescriptionKey, t1);
      if pd.Some? && pd.value.1 != [] {
        var t2 := pd.value.1;
        CutRest(name.1, description.1, t1);
        StringMemberCut(CategoryKey, description.1, t2);
        var pc := ParseStringMember(CategoryKey, t2);
        assert ParseTextMembers(t) ==
          if pc.None? then None else Some(((pn.value.0, pd.value.0, pc.value.0), pc.value.1));
      } else {
        assert pd.Some? ==> ParseStringMember(CategoryKey, pd.value.1) == None;
        assert ParseTextMembers(t) == None;
      }
    } else {
      assert pn.Some? ==> ParseStringMember(DescriptionKey, pn.value.1) == None;
      assert ParseTextMembers(t) == None;
    }
  }

  lemma ProductMembersCut(s: string, t: string)
    requires ParseProductMembers(s).Some? && t <= s
    ensures StopsAlike(s, ParseProductMembers(s).value.1, t, ParseProductMembers(t))
  {
    var id := ParseNatMember(IdKey, s).value;
    var text := ParseTextMembers(id.1).value;
    var price := ParseNatMember(PriceKey, text.1).value;
    var image := ParseStringMember(ImageKey, price.1).value;
    assert ParseProductMembers(s).value.1 == image.1;
    RestOfRest(text.1, id.1, s);
    RestOfRest(price.1, text.1, s);
    NatMemberCut(IdKey, s, t);
    var pi := ParseNatMember(IdKey, t);
    if pi.Some? && pi.value.1 != [] {
      var t1 := pi.value.1;
      CutRest(s, id.1, t);
      TextMembersCut(id.1, t1);
      var pt := ParseTextMembers(t1);
      if pt.Some? && pt.value.1 != [] {
        var t2 := pt.value.1;
        CutRest(id.1, text.1, t1);
        NatMemberCut(PriceKey, text.1, t2);
        var pp := ParseNatMember(PriceKey, t2);
        if pp.Some? && pp.value.1 != [] {
          var t3 := pp.value.1;
          CutRest(text.1, price.1, t2);
          StringMemberCut(ImageKey, price.1, t3);
          var pm := ParseStringMember(ImageKey, t3);
          assert ParseProductMembers(t) ==
            if pm.None? then None
            else Some((Product(pi.value.0, pt.value.0.0, pt.value.0.1, pt.value.0.2, pp.value.0, pm.value.0),
                       pm.value.1));
        } else {
          assert pp.Some? ==> ParseStringMember(ImageKey, pp.value.1) == None;
          assert ParseProductMembers(t) == None;
        }
      } else {
        assert pt.Some? ==> ParseNatMember(PriceKey, pt.value.1) == None;
        assert ParseProductMembers(t) == None;
      }
    } else {
      assert pi.Some? ==> ParseTextMembers(pi.value.1) == None;
      assert ParseProductMembers(t) == None;
    }
  }

  lemma LineCut(s: string, t: string)
    requires ParseLine(s).Some? && t <= s
    ensures StopsAlike(s, ParseLine(s).value.1, t, ParseLine(t))
  {
    var product := ParseProductMembers(s).value;
    var qty := ParseNatMember(QtyKey, product.1).value;
    var close := ParseLiteral("}", qty.1).value;
    assert ParseLine(s).value.1 == close;
    ProductMembersCut(s, t);
    var pp := ParseProductMembers(t);
    if pp.Some? && pp.value.1 != [] {
      var t1 := pp.value.1;
      CutRest(s, product.1, t);
      NatMemberCut(QtyKey, product.1, t1);
      var pq := ParseNatMember(QtyKey, t1);
      if pq.Some? && pq.value.1 != [] {
        var t2 := pq.value.1;
        CutRest(product.1, qty.1, t1);
        LiteralCut("}", qty.1, t2);
        assert ParseLine(t) ==
          if |t2| < 1 then None else Some((Line(pp.value.0, pq.value.0), t2[1..]));
      } else {
        assert pq.Some? ==> ParseLiteral("}", pq.value.1) == None;
        assert ParseLine(t) == None;
      }
    } else {
      assert pp.Some? ==> ParseNatMember(QtyKey, pp.value.1) == None;
      assert ParseLine(t) == None;
    }
  }

  lemma {:induction false} MoreLinesCut(s: string, t: string)
    requires ParseMoreLines(s).Some? && t <= s
    ensures StopsAlike(s, ParseMoreLines(s).value.1, t, ParseMoreLines(t))
    decreases |s|
  {
    if t != [] {
      assert t[0] == s[0];
      if s[0] == ',' {
        CommaCut(s, t);
      }
    }
  }

  /** MoreLinesCut for a text that starts with a comma */
  lemma {:induction false} CommaCut(s: string, t: string)
    requires ParseMoreLines(s).Some? && t <= s && t != [] && s[0] == ','
    ensures StopsAlike(s, ParseMoreLines(s).value.1, t, ParseMoreLines(t))
    decreases |s|, 0
  {
    var line := ParseLine(s[1..]).value;
    var more := ParseMoreLines(line.1).value;
    assert ParseMoreLines(s).value.1 == more.1;
    assert t[0] == ',';
    assert t[1..] <= s[1..];
    LineCut(s[1..], t[1..]);
    var pl := ParseLine(t[1..]);
    if pl.Some? && pl.value.1 != [] {
      var t1 := pl.value.1;
      CutRest(s[1..], line.1, t[1..]);
      MoreLinesCut(line.1, t1);
      var pm := ParseMoreLines(t1);
      assert ParseMoreLines(t) ==
        if pm.None? then None else Some(([pl.value.0] + pm.value.0, pm.value.1));
    } else {
      assert pl.Some? ==> ParseMoreLines(pl.value.1) == Some(([], []));
    }
  }

  /** Every proper prefix of a text ParseCart accepts is rejected. */
  lemma TruncatedTextRejected(s: string, t: string)
    requires ParseCart(s).Some? && t <= s && |t| < |s|
    ensures ParseCart(t) == None
  {
    if 1 <= |t| {
      assert t[0] == s[0] == '[';
      assert t[1..] <= s[1..];
      TruncatedItemsRejected(s[1..], t[1..]);
      assert ParseCart(t) == ParseItems(t[1..]);
    }
  }

  /** TruncatedTextRejected after the opening bracket */
  lemma TruncatedItemsRejected(body: string, tb: string)
    requires ParseItems(body).Some? && tb <= body && |tb| < |body|
    ensures ParseItems(tb) == None
  {
    if tb == [] {
      ItemsRejected(tb);
    } else {
      var first := ParseLine(body).value;
      var more := ParseMoreLines(first.1).value;
      assert more.1 == "]";
      LineCut(body, tb);
      var pl := ParseLine(tb);
      if pl.Some? && pl.value.1 != [] {
        var t1 := pl.value.1;
        CutRest(body, first.1, tb);
        MoreLinesCut(first.1, t1);
      } else if pl.Some? {
        assert ParseMoreLines(pl.value.1) == Some(([], []));
      }
      ItemsRejected(tb);
    }
  }

  /** ParseItems fails when the first line, or the lines after it, fail or stop
      short of the closing bracket */
  lemma ItemsRejected(s: string)
    requires s != "]"
    requires ParseLine(s).None? || ParseMoreLines(ParseLine(s).value.1).None?
      || ParseMoreLines(ParseLine(s).value.1).value.1 != "]"
    ensures ParseItems(s) == None
  {
  }

  /** A stored cart text that was cut short loads as nothing: every proper prefix of
      what the save step writes is rejected. */
  lemma TruncatedSaveRejected(cart: CartState, k: nat)
    requires k < |SerializeCart(cart)|
    ensures ParseCart(SerializeCart(cart)[..k]) == None
  {
    CartRoundTrip(cart);
    TruncatedTextRejected(SerializeCart(cart), SerializeCart(cart)[..k]);
  }
}
