/** Strings and numbers inside a larger text: what the printer wrote the parser reads back, and what the parser took is
    never shorter than what the printer writes. */
module JsonPieces {
  import opened Basics
  import opened Json
  import opened JsonParser

  /** `t` stands at `pos`. */
  predicate Sits(s: string, pos: nat, t: string) { pos + |t| <= |s| && s[pos..pos + |t|] == t }

  lemma SitsSplit(s: string, pos: nat, a: string, b: string)
    ensures Sits(s, pos, a + b) <==> Sits(s, pos, a) && Sits(s, pos + |a|, b)
  {
    if pos + |a| + |b| <= |s| {
      var all := s[pos..pos + |a + b|];
      assert all == s[pos..pos + |a|] + s[pos + |a|..pos + |a| + |b|];
      if Sits(s, pos, a + b) { assert all[..|a|] == a && all[|a|..] == b; }
    }
  }

  lemma SitsAt(s: string, pos: nat, t: string, k: nat)
    requires Sits(s, pos, t) && k < |t|
    ensures pos + k < |s| && s[pos + k] == t[k]
  {}

  lemma NotBlank(s: string, pos: nat)
    requires pos < |s| && !Blank(s[pos])
    ensures SkipBlanks(s, pos) == pos
  {}

  // ---- strings ----

  lemma HexDigit(k: nat)
    requires k < 16
    ensures HexValue(HEX[k]) == k && HEX[k] as int < 0x80
  {}

  lemma ControlBack(s: string, pos: nat, c: char)
    requires c < ' ' && Sits(s, pos, "\\u00" + [HEX[c as int / 16], HEX[c as int % 16]])
    ensures StringChar(s, pos) == Done(c, pos + 6)
  {
    var t := "\\u00" + [HEX[c as int / 16], HEX[c as int % 16]];
    HexDigit(c as int / 16);
    HexDigit(c as int % 16);
    SitsAt(s, pos, t, 0);
    SitsAt(s, pos, t, 1);
    SitsAt(s, pos, t, 2);
    SitsAt(s, pos, t, 3);
    SitsAt(s, pos, t, 4);
    SitsAt(s, pos, t, 5);
    assert t[2] == '0' && t[3] == '0' && t[4] == HEX[c as int / 16] && t[5] == HEX[c as int % 16];
  }

  /** Each escaped scalar reads back as itself. */
  lemma CharBack(s: string, pos: nat, c: char)
    requires Sits(s, pos, Escape1(c))
    ensures pos < |s| && s[pos] != '\"' && StringChar(s, pos) == Done(c, pos + |Escape1(c)|)
  {
    SitsAt(s, pos, Escape1(c), 0);
    if c < ' ' && |Escape1(c)| == 6 {
      ControlBack(s, pos, c);
    } else if |Escape1(c)| == 2 {
      SitsAt(s, pos, Escape1(c), 1);
    }
  }

  lemma {:induction false} StringBack(s: string, pos: nat, t: string, out: string)
    requires Sits(s, pos, Escape(t) + "\"")
    ensures StringFrom(s, pos, out) == Done(out + t, pos + |Escape(t)| + 1)
    decreases |t|
  {
    hide Escape1, StringChar;
    SitsSplit(s, pos, Escape(t), "\"");
    if t == "" {
      SitsAt(s, pos, "\"", 0);
      assert out + t == out;
    } else {
      var c, rest := t[0], t[1..];
      assert Escape(t) + "\"" == Escape1(c) + (Escape(rest) + "\"");
      SitsSplit(s, pos, Escape1(c), Escape(rest) + "\"");
      CharBack(s, pos, c);
      StringBack(s, pos + |Escape1(c)|, rest, out + [c]);
      assert out + [c] + rest == out + t;
    }
  }

  lemma QuotedBack(s: string, pos: nat, t: string)
    requires Sits(s, pos, Quoted(t))
    ensures At(s, pos, '\"') && StringFrom(s, pos + 1, "") == Done(t, pos + |Quoted(t)|)
  {
    assert Quoted(t) == "\"" + (Escape(t) + "\"");
    SitsSplit(s, pos, "\"", Escape(t) + "\"");
    SitsAt(s, pos, "\"", 0);
    StringBack(s, pos + 1, t, "");
    assert "" + t == t;
  }

  // ---- sizes ----

  lemma {:induction false} AtLeastLength(t: string)
    ensures Bytes(t) >= |t|
  {
    if t != "" { AtLeastLength(t[..|t| - 1]); }
  }

  lemma {:induction false} AsciiBytes(t: string)
    requires forall i | 0 <= i < |t| :: t[i] < 0x80 as char
    ensures Bytes(t) == |t|
  {
    if t != "" { AsciiBytes(t[..|t| - 1]); }
  }

  lemma Pieces(s: string, i: nat, j: nat, k: nat)
    requires i <= j <= k <= |s|
    ensures Bytes(s[i..k]) == Bytes(s[i..j]) + Bytes(s[j..k])
  {
    assert s[i..k] == s[i..j] + s[j..k];
    BytesAppend(s[i..j], s[j..k]);
  }

  lemma OneChar(c: char)
    ensures Bytes([c]) == Utf8Len(c)
  {
    assert [c][..0] == "";
  }

  lemma Escape1Size(c: char)
    ensures Bytes(Escape1(c)) <= 6
    ensures |Escape1(c)| == 2 ==> Bytes(Escape1(c)) == 2
    ensures |Escape1(c)| == 1 ==> Escape1(c) == [c]
    ensures |Escape1(c)| in {1, 2, 6}
  {
    if |Escape1(c)| == 1 {
      OneChar(c);
    } else {
      if c < ' ' {
        HexDigit(c as int / 16);
        HexDigit(c as int % 16);
      }
      AsciiBytes(Escape1(c));
    }
  }

  lemma CharSize(s: string, pos: nat)
    requires pos < |s| && s[pos] != '\"' && StringChar(s, pos).Done?
    ensures var r := StringChar(s, pos); Bytes(Escape1(r.value)) <= Bytes(s[pos..r.next])
  {
    var r := StringChar(s, pos);
    Escape1Size(r.value);
    AtLeastLength(s[pos..r.next]);
    if s[pos] == '\\' {
      if s[pos + 1] != 'u' { ShortEscapes(s[pos + 1]); }
    } else {
      assert Escape1(s[pos]) == [s[pos]] && s[pos..pos + 1] == [s[pos]];
    }
  }

  lemma ShortEscapes(c: char)
    requires ShortEscape(c) != ""
    ensures Bytes(Escape1(ShortEscape(c)[0])) <= 2
  {
    Escape1Size(ShortEscape(c)[0]);
    OneChar('/');
  }

  lemma {:induction false} EscapeSnoc(t: string, c: char)
    ensures Escape(t + [c]) == Escape(t) + Escape1(c)
  {
    hide Escape1;
    if t == "" {
      assert t + [c] == [c];
      assert Escape([c]) == Escape1(c) + Escape("");
    } else {
      assert (t + [c])[1..] == t[1..] + [c];
      EscapeSnoc(t[1..], c);
    }
  }

  lemma {:induction false} StringSize(s: string, pos: nat, out: string)
    requires pos <= |s| && StringFrom(s, pos, out).Done?
    ensures var r := StringFrom(s, pos, out);
            Bytes(Escape(r.value)) + 1 <= Bytes(Escape(out)) + Bytes(s[pos..r.next])
    decreases |s| - pos
  {
    hide Escape1, Escape, StringChar;
    var r := StringFrom(s, pos, out);
    if s[pos] == '\"' {
      AtLeastLength(s[pos..r.next]);
    } else {
      var c := StringChar(s, pos);
      StringSize(s, c.next, out + [c.value]);
      EscapeSnoc(out, c.value);
      BytesAppend(Escape(out), Escape1(c.value));
      CharSize(s, pos);
      Pieces(s, pos, c.next, r.next);
    }
  }

  lemma QuotedSize(s: string, pos: nat)
    requires At(s, pos, '\"') && StringFrom(s, pos + 1, "").Done?
    ensures var r := StringFrom(s, pos + 1, ""); Bytes(Quoted(r.value)) <= Bytes(s[pos..r.next])
  {
    var r := StringFrom(s, pos + 1, "");
    StringSize(s, pos + 1, "");
    BytesAppend("\"", Escape(r.value));
    BytesAppend("\"" + Escape(r.value), "\"");
    OneChar('\"');
    assert Bytes("") == 0 && Escape("") == "";
    Pieces(s, pos, pos + 1, r.next);
    assert s[pos..pos + 1] == "\"";
  }

  // ---- numbers ----

  /** Text that ends a number. */
  predicate Follow(s: string, pos: nat) {
    pos < |s| ==> !Digit(s[pos]) && s[pos] != '.' && s[pos] != 'e' && s[pos] != 'E'
  }

  predicate Lexeme(raw: string) {
    raw != "" && NumberEnd(raw, 0) == Done((), |raw|)
  }

  lemma {:induction false} DigitsBack(s: string, pos: nat, raw: string, k: nat)
    requires Sits(s, pos, raw) && k <= |raw| && Follow(s, pos + |raw|)
    ensures SkipDigits(s, pos + k) == pos + SkipDigits(raw, k)
    decreases |raw| - k
  {
    if k < |raw| {
      SitsAt(s, pos, raw, k);
      if Digit(raw[k]) { DigitsBack(s, pos, raw, k + 1); }
    }
  }

  lemma SameAt(s: string, pos: nat, raw: string, k: nat)
    requires Sits(s, pos, raw) && k < |raw|
    ensures forall c :: At(s, pos + k, c) == At(raw, k, c)
    ensures DigitAt(s, pos + k) == DigitAt(raw, k)
  {
    SitsAt(s, pos, raw, k);
  }

  lemma DigitsEndBack(s: string, pos: nat, raw: string, k: nat)
    requires Sits(s, pos, raw) && k <= |raw| && Follow(s, pos + |raw|) && DigitsEnd(raw, k).Done?
    ensures DigitsEnd(s, pos + k) == Done((), pos + DigitsEnd(raw, k).next)
  {
    SameAt(s, pos, raw, k);
    DigitsBack(s, pos, raw, k + 1);
  }

  lemma IntegerBack(s: string, pos: nat, raw: string, k: nat)
    requires Sits(s, pos, raw) && k <= |raw| && Follow(s, pos + |raw|) && IntegerEnd(raw, k).Done?
    ensures IntegerEnd(s, pos + k) == Done((), pos + IntegerEnd(raw, k).next)
  {
    SameAt(s, pos, raw, k);
    DigitsBack(s, pos, raw, k + 1);
  }

  lemma FractionBack(s: string, pos: nat, raw: string, k: nat)
    requires Sits(s, pos, raw) && k <= |raw| && Follow(s, pos + |raw|) && FractionEnd(raw, k).Done?
    ensures FractionEnd(s, pos + k) == Done((), pos + FractionEnd(raw, k).next)
  {
    if k < |raw| {
      SameAt(s, pos, raw, k);
      if At(raw, k, '.') { DigitsEndBack(s, pos, raw, k + 1); }
    }
  }

  lemma ExponentBack(s: string, pos: nat, raw: string, k: nat)
    requires Sits(s, pos, raw) && k <= |raw| && Follow(s, pos + |raw|) && ExponentEnd(raw, k).Done?
    ensures ExponentEnd(s, pos + k) == Done((), pos + ExponentEnd(raw, k).next)
  {
    if k < |raw| {
      SameAt(s, pos, raw, k);
      if At(raw, k, 'e') || At(raw, k, 'E') {
        SameAt(s, pos, raw, k + 1);
        DigitsEndBack(s, pos, raw, if At(raw, k + 1, '+') || At(raw, k + 1, '-') then k + 2 else k + 1);
      }
    }
  }

  /** A lexeme in a larger text, with something after it that ends it, reads back whole. */
  lemma NumberBack(s: string, pos: nat, raw: string)
    requires Lexeme(raw) && Sits(s, pos, raw) && Follow(s, pos + |raw|)
    ensures NumberEnd(s, pos) == Done((), pos + |raw|)
    ensures pos < |s| && (s[pos] == '-' || Digit(s[pos])) && s[pos] == raw[0]
  {
    hide IntegerEnd, FractionEnd, ExponentEnd;
    SameAt(s, pos, raw, 0);
    SitsAt(s, pos, raw, 0);
    var k := if At(raw, 0, '-') then 1 else 0;
    IntegerBack(s, pos, raw, k);
    FractionBack(s, pos, raw, IntegerEnd(raw, k).next);
    ExponentBack(s, pos, raw, FractionEnd(raw, IntegerEnd(raw, k).next).next);
    if k == 0 { IntegerStarts(raw); }
  }

  lemma IntegerStarts(raw: string)
    requires IntegerEnd(raw, 0).Done?
    ensures raw != "" && Digit(raw[0])
  {}

  // ---- a number taken from a text is a lexeme ----

  lemma {:induction false} DigitsCut(s: string, pos: nat, n: nat, k: nat)
    requires pos + k <= n <= |s| && SkipDigits(s, pos + k) <= n
    ensures SkipDigits(s[pos..n], k) == SkipDigits(s, pos + k) - pos
    decreases n - k
  {
    if DigitAt(s, pos + k) { DigitsCut(s, pos, n, k + 1); }
  }

  lemma CutAt(s: string, pos: nat, n: nat, k: nat)
    requires pos + k <= n <= |s|
    ensures forall c :: At(s[pos..n], k, c) == (pos + k < n && At(s, pos + k, c))
    ensures DigitAt(s[pos..n], k) == (pos + k < n && DigitAt(s, pos + k))
  {}

  lemma DigitsEndCut(s: string, pos: nat, n: nat, k: nat)
    requires pos + k <= n <= |s| && DigitsEnd(s, pos + k).Done? && DigitsEnd(s, pos + k).next <= n
    ensures DigitsEnd(s[pos..n], k) == Done((), DigitsEnd(s, pos + k).next - pos)
  {
    CutAt(s, pos, n, k);
    DigitsCut(s, pos, n, k + 1);
  }

  lemma IntegerCut(s: string, pos: nat, n: nat, k: nat)
    requires pos + k <= n <= |s| && IntegerEnd(s, pos + k).Done? && IntegerEnd(s, pos + k).next <= n
    ensures IntegerEnd(s[pos..n], k) == Done((), IntegerEnd(s, pos + k).next - pos)
  {
    CutAt(s, pos, n, k);
    if !At(s, pos + k, '0') { DigitsCut(s, pos, n, k + 1); }
  }

  lemma FractionCut(s: string, pos: nat, n: nat, k: nat)
    requires pos + k <= n <= |s| && FractionEnd(s, pos + k).Done? && FractionEnd(s, pos + k).next <= n
    ensures FractionEnd(s[pos..n], k) == Done((), FractionEnd(s, pos + k).next - pos)
  {
    CutAt(s, pos, n, k);
    if At(s, pos + k, '.') { DigitsEndCut(s, pos, n, k + 1); }
  }

  lemma ExponentCut(s: string, pos: nat, n: nat, k: nat)
    requires pos + k <= n <= |s| && ExponentEnd(s, pos + k).Done? && ExponentEnd(s, pos + k).next <= n
    ensures ExponentEnd(s[pos..n], k) == Done((), ExponentEnd(s, pos + k).next - pos)
  {
    CutAt(s, pos, n, k);
    if At(s, pos + k, 'e') || At(s, pos + k, 'E') {
      CutAt(s, pos, n, k + 1);
      DigitsEndCut(s, pos, n, if At(s, pos + k + 1, '+') || At(s, pos + k + 1, '-') then k + 2 else k + 1);
    }
  }

  lemma NumberCut(s: string, pos: nat)
    requires pos <= |s| && NumberEnd(s, pos).Done?
    ensures Lexeme(s[pos..NumberEnd(s, pos).next])
  {
    hide IntegerEnd, FractionEnd, ExponentEnd;
    var n := NumberEnd(s, pos).next;
    CutAt(s, pos, n, 0);
    var k := if At(s, pos, '-') then 1 else 0;
    IntegerCut(s, pos, n, k);
    var i := IntegerEnd(s, pos + k).next - pos;
    FractionCut(s, pos, n, i);
    ExponentCut(s, pos, n, FractionEnd(s, pos + i).next - pos);
  }
}
