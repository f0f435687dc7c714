/** The grammar of JSON (RFC 8259 sections 2 to 7) as trees of spelled-out pieces, independent of how the parser moves:
    what text a tree is and what value it means. The parser takes exactly the texts of such trees, within its limits,
    and gives exactly their meaning. */
module JsonGrammar {
  import opened Basics
  import opened Json
  import opened JsonParser
  import opened JsonPieces

  // ---- scalars in strings ----

  /** d is the hex digit of k, in either case. */
  predicate HexIs(d: char, k: int) { 0 <= k < 16 && (d == "0123456789abcdef"[k] || d == "0123456789ABCDEF"[k]) }

  /** Four hex digits of n. */
  predicate Hexes(h: string, n: int) {
    && |h| == 4 && 0 <= n < 0x1_0000
    && HexIs(h[0], n / 0x1000) && HexIs(h[1], n / 0x100 % 0x10) && HexIs(h[2], n / 0x10 % 0x10) && HexIs(h[3], n % 0x10)
  }

  /** The eight short escapes. */
  predicate Short(letter: char, c: char) {
    || (letter == '\"' && c == '\"') || (letter == '\\' && c == '\\') || (letter == '/' && c == '/')
    || (letter == 'b' && c == 8 as char) || (letter == 'f' && c == 12 as char) || (letter == 'n' && c == 10 as char)
    || (letter == 'r' && c == 13 as char) || (letter == 't' && c == 9 as char)
  }

  /** Inside a string, t spells the scalar c: as itself, by a short escape, or by the hex digits of its UTF-16 units. */
  predicate Spells(t: string, c: char) {
    || (t == [c] && c != '\"' && c != '\\' && c >= ' ')
    || (|t| == 2 && t[0] == '\\' && Short(t[1], c))
    || (|t| == 6 && t[..2] == "\\u" && |Units(c)| == 1 && Hexes(t[2..], Units(c)[0]))
    || (|t| == 12 && t[..2] == "\\u" && t[6..8] == "\\u" && |Units(c)| == 2
        && Hexes(t[2..6], Units(c)[0]) && Hexes(t[8..], Units(c)[1]))
  }

  lemma HexIsValue(d: char, k: int)
    requires 0 <= k < 16
    ensures HexIs(d, k) <==> HexValue(d) == k
  {}

  lemma OneDigit(x: nat, r: nat)
    requires r < 16
    ensures (x * 16 + r) / 16 == x && (x * 16 + r) % 16 == r
  {}

  lemma DigitByDigit(n: nat)
    ensures n / 0x100 == n / 16 / 16 && n / 0x1000 == n / 16 / 16 / 16
  {}

  lemma FourDigits(n: nat)
    requires n < 0x1_0000
    ensures n / 0x1000 < 16 && n / 0x100 % 0x10 < 16 && n / 0x10 % 0x10 < 16 && n % 0x10 < 16
    ensures n == n / 0x1000 * 0x1000 + n / 0x100 % 0x10 * 0x100 + n / 0x10 % 0x10 * 0x10 + n % 0x10
  {
    DigitByDigit(n);
    var a := n / 16;
    var b := a / 16;
    assert n == a * 16 + n % 16 && a == b * 16 + a % 16 && b == b / 16 * 16 + b % 16;
  }

  lemma DigitsOf(a: nat, b: nat, c: nat, d: nat)
    requires a < 16 && b < 16 && c < 16 && d < 16
    ensures var n := a * 0x1000 + b * 0x100 + c * 0x10 + d;
            n < 0x1_0000 && n / 0x1000 == a && n / 0x100 % 0x10 == b && n / 0x10 % 0x10 == c && n % 0x10 == d
  {
    var x := a * 16 + b;
    var y := x * 16 + c;
    var n := y * 16 + d;
    OneDigit(a, b);
    OneDigit(x, c);
    OneDigit(y, d);
    DigitByDigit(n);
  }

  lemma HexBounds(d: char)
    ensures -1 <= HexValue(d) < 16
  {}

  lemma HexesRead(s: string, pos: nat, h: string, n: int)
    requires Sits(s, pos, h) && Hexes(h, n)
    ensures Hex4(s, pos) == Done(n, pos + 4)
  {
    hide HexIs, HexValue, Sits;
    FourDigits(n);
    HexIsValue(h[0], n / 0x1000);
    HexIsValue(h[1], n / 0x100 % 0x10);
    HexIsValue(h[2], n / 0x10 % 0x10);
    HexIsValue(h[3], n % 0x10);
    SitsAt(s, pos, h, 0);
    SitsAt(s, pos, h, 1);
    SitsAt(s, pos, h, 2);
    SitsAt(s, pos, h, 3);
  }

  lemma ReadHexes(s: string, pos: nat)
    requires Hex4(s, pos).Done?
    ensures pos + 4 <= |s| && Hexes(s[pos..pos + 4], Hex4(s, pos).value)
  {
    hide HexIs, HexValue;
    var a, b, c, d := HexValue(s[pos]), HexValue(s[pos + 1]), HexValue(s[pos + 2]), HexValue(s[pos + 3]);
    HexBounds(s[pos]);
    HexBounds(s[pos + 1]);
    HexBounds(s[pos + 2]);
    HexBounds(s[pos + 3]);
    DigitsOf(a, b, c, d);
    HexIsValue(s[pos], a);
    HexIsValue(s[pos + 1], b);
    HexIsValue(s[pos + 2], c);
    HexIsValue(s[pos + 3], d);
  }

  lemma UnitsAre(c: char)
    ensures |Units(c)| == 1 ==> Units(c)[0] == c as int && !(0xD800 <= Units(c)[0] <= 0xDFFF)
    ensures |Units(c)| == 2 ==>
              && 0xD800 <= Units(c)[0] <= 0xDBFF && 0xDC00 <= Units(c)[1] <= 0xDFFF
              && c as int == 0x1_0000 + (Units(c)[0] - 0xD800) * 0x400 + (Units(c)[1] - 0xDC00)
    ensures |Units(c)| in {1, 2}
  {}

  lemma PartSits(s: string, pos: nat, t: string, i: nat, j: nat)
    requires Sits(s, pos, t) && i <= j <= |t|
    ensures Sits(s, pos + i, t[i..j])
  {
    forall k | i <= k < j ensures s[pos + k] == t[k] { SitsAt(s, pos, t, k); }
  }

  /** Every spelling of a scalar reads as that scalar. */
  lemma SpellingReads(s: string, pos: nat, t: string, c: char)
    requires Spells(t, c) && Sits(s, pos, t)
    ensures t != "" && pos < |s| && s[pos] != '\"' && StringChar(s, pos) == Done(c, pos + |t|)
  {
    hide Units, Hexes, Sits, Hex4;
    UnitsAre(c);
    SitsAt(s, pos, t, 0);
    if |t| == 2 {
      SitsAt(s, pos, t, 1);
    } else if |t| == 6 {
      assert t[..2][1] == 'u' && t[2..6] == t[2..];
      SitsAt(s, pos, t, 1);
      PartSits(s, pos, t, 2, 6);
      HexesRead(s, pos + 2, t[2..], Units(c)[0]);
    } else if |t| == 12 {
      assert t[..2][0] == '\\' && t[..2][1] == 'u' && t[6..8][0] == t[6] && t[6..8][1] == t[7];
      assert t[8..12] == t[8..];
      SitsAt(s, pos, t, 1);
      SitsAt(s, pos, t, 6);
      SitsAt(s, pos, t, 7);
      PartSits(s, pos, t, 2, 6);
      PartSits(s, pos, t, 8, 12);
      HexesRead(s, pos + 2, t[2..6], Units(c)[0]);
      HexesRead(s, pos + 8, t[8..], Units(c)[1]);
    }
  }

  lemma UnitsFrom(hi: nat, lo: nat)
    requires 0xD800 <= hi <= 0xDBFF && 0xDC00 <= lo <= 0xDFFF
    ensures Units((0x1_0000 + (hi - 0xD800) * 0x400 + (lo - 0xDC00)) as char) == [hi, lo]
  {}

  /** ... and nothing else does. */
  lemma ReadSpelling(s: string, pos: nat)
    requires pos < |s| && s[pos] != '\"' && StringChar(s, pos).Done?
    ensures var r := StringChar(s, pos); Spells(s[pos..r.next], r.value)
  {
    hide Hexes;
    var r := StringChar(s, pos);
    var t := s[pos..r.next];
    if s[pos] == '\\' && s[pos + 1] == 'u' {
      ReadHexes(s, pos + 2);
      assert t[..2] == "\\u" && t[2..6] == s[pos + 2..pos + 6];
      if |t| == 12 {
        ReadHexes(s, pos + 8);
        UnitsFrom(Hex4(s, pos + 2).value, Hex4(s, pos + 8).value);
        assert t[6..8] == "\\u" && t[8..] == s[pos + 8..pos + 12];
      } else {
        assert t[2..] == t[2..6];
      }
    } else if s[pos] == '\\' {
      assert t == [s[pos], s[pos + 1]];
    } else {
      assert t == [s[pos]];
    }
  }

  /** The printer writes each scalar in its shortest spelling, with lower-case digits. */
  lemma ShortestSpelling(c: char)
    ensures Spells(Escape1(c), c) && forall i | 0 <= i < |Escape1(c)| ::
              !('A' <= Escape1(c)[i] <= 'F') || |Escape1(c)| == 1
    ensures forall t | Spells(t, c) :: |Escape1(c)| <= |t|
  {
    var t := Escape1(c);
    if |t| == 6 {
      var n := c as int;
      assert t[..2] == "\\u" && t[2..] == ['0', '0', HEX[n / 16], HEX[n % 16]];
      assert n / 0x1000 == 0 && n / 0x100 % 0x10 == 0 && n / 0x10 % 0x10 == n / 16;
      HexIsValue('0', 0);
      HexDigit(n / 16);
      HexDigit(n % 16);
      HexIsValue(HEX[n / 16], n / 16);
      HexIsValue(HEX[n % 16], n % 16);
    }
  }

  // ---- strings ----

  /** A scalar and the text it is spelled by. */
  datatype Spelled = Spelled(text: string, c: char)

  ghost predicate AllSpelled(cs: seq<Spelled>) { forall i | 0 <= i < |cs| :: Spells(cs[i].text, cs[i].c) }

  function Body(cs: seq<Spelled>): string { if cs == [] then "" else cs[0].text + Body(cs[1..]) }

  function Said(cs: seq<Spelled>): (t: string)
    ensures |t| == |cs| && forall i | 0 <= i < |t| :: t[i] == cs[i].c
  {
    if cs == [] then "" else [cs[0].c] + Said(cs[1..])
  }

  lemma {:induction false} BodyReads(s: string, pos: nat, cs: seq<Spelled>, out: string)
    requires AllSpelled(cs) && Sits(s, pos, Body(cs) + "\"")
    ensures pos <= |s| && StringFrom(s, pos, out) == Done(out + Said(cs), pos + |Body(cs)| + 1)
    decreases |cs|
  {
    hide Spells, StringChar;
    SitsSplit(s, pos, Body(cs), "\"");
    if cs == [] {
      SitsAt(s, pos, "\"", 0);
      assert out + Said(cs) == out;
    } else {
      var t, rest := cs[0].text, cs[1..];
      assert Body(cs) + "\"" == t + (Body(rest) + "\"");
      SitsSplit(s, pos, t, Body(rest) + "\"");
      SpellingReads(s, pos, t, cs[0].c);
      BodyReads(s, pos + |t|, rest, out + [cs[0].c]);
      assert out + [cs[0].c] + Said(rest) == out + Said(cs);
    }
  }

  /** Whatever a string is read from is spelled scalar by scalar. */
  lemma {:induction false} ReadBody(s: string, pos: nat, out: string) returns (cs: seq<Spelled>)
    requires pos <= |s| && StringFrom(s, pos, out).Done?
    ensures var r := StringFrom(s, pos, out);
            AllSpelled(cs) && s[pos..r.next] == Body(cs) + "\"" && r.value == out + Said(cs)
    decreases |s| - pos
  {
    hide Spells, StringChar, AllSpelled, Body, Said;
    if s[pos] == '\"' {
      NoneSpelled(out);
      cs := [];
    } else {
      var c := StringChar(s, pos);
      ReadSpelling(s, pos);
      var rest := ReadBody(s, c.next, out + [c.value]);
      var n := StringFrom(s, pos, out).next;
      cs := [Spelled(s[pos..c.next], c.value)] + rest;
      OneMoreSpelled(Spelled(s[pos..c.next], c.value), rest, out);
      CutIn(s, pos, c.next, n);
    }
  }

  lemma NoneSpelled(out: string)
    ensures AllSpelled([]) && Body([]) == "" && out + Said([]) == out
  {}

  lemma OneMoreSpelled(x: Spelled, rest: seq<Spelled>, out: string)
    requires Spells(x.text, x.c) && AllSpelled(rest)
    ensures var cs := [x] + rest;
            AllSpelled(cs) && Body(cs) + "\"" == x.text + (Body(rest) + "\"")
            && out + [x.c] + Said(rest) == out + Said(cs)
  {
    hide Spells;
    var cs := [x] + rest;
    assert cs[1..] == rest;
  }

  lemma CutIn(s: string, i: nat, j: nat, k: nat)
    requires i <= j <= k <= |s|
    ensures s[i..k] == s[i..j] + s[j..k]
  {}

  // ---- numbers ----

  predicate AllDigits(t: string) { forall i | 0 <= i < |t| :: Digit(t[i]) }

  /** 0, or digits that do not start with 0. */
  predicate IntegerText(t: string) { t == "0" || (t != "" && AllDigits(t) && t[0] != '0') }

  predicate FractionText(t: string) { t == "" || (|t| >= 2 && t[0] == '.' && AllDigits(t[1..])) }

  predicate ExponentText(t: string) {
    || t == ""
    || (&& |t| >= 2 && (t[0] == 'e' || t[0] == 'E')
        && (AllDigits(t[1..]) || (|t| >= 3 && (t[1] == '+' || t[1] == '-') && AllDigits(t[2..]))))
  }

  /** An optional minus, an integer part, an optional fraction, an optional exponent. */
  datatype Numeral = Numeral(negative: bool, integer: string, fraction: string, exponent: string)

  predicate Sound(n: Numeral) { IntegerText(n.integer) && FractionText(n.fraction) && ExponentText(n.exponent) }

  function NumeralText(n: Numeral): string {
    (if n.negative then "-" else "") + n.integer + n.fraction + n.exponent
  }

  lemma {:induction false} DigitsSkipped(s: string, pos: nat, n: nat)
    requires pos <= n <= |s| && (forall i | pos <= i < n :: Digit(s[i])) && !DigitAt(s, n)
    ensures SkipDigits(s, pos) == n
    decreases n - pos
  {
    if pos < n { DigitsSkipped(s, pos + 1, n); }
  }

  lemma {:induction false} SkippedDigits(s: string, pos: nat)
    requires pos <= |s|
    ensures var n := SkipDigits(s, pos); (forall i | pos <= i < n :: Digit(s[i])) && !DigitAt(s, n)
    decreases |s| - pos
  {
    if DigitAt(s, pos) { SkippedDigits(s, pos + 1); }
  }

  /** Digits inside a text that stands somewhere. */
  lemma DigitsStand(s: string, pos: nat, t: string, j: nat)
    requires Sits(s, pos, t) && j <= |t| && AllDigits(t[j..])
    ensures forall i | pos + j <= i < pos + |t| :: Digit(s[i])
  {
    forall i | pos + j <= i < pos + |t| ensures Digit(s[i]) {
      SitsAt(s, pos, t, i - pos);
      assert t[j..][i - pos - j] == t[i - pos];
    }
  }

  lemma IntegerTaken(s: string, pos: nat, t: string)
    requires IntegerText(t) && Sits(s, pos, t) && !DigitAt(s, pos + |t|)
    ensures IntegerEnd(s, pos) == Done((), pos + |t|)
  {
    SitsAt(s, pos, t, 0);
    if t != "0" {
      assert t[0..] == t;
      DigitsStand(s, pos, t, 0);
      DigitsSkipped(s, pos + 1, pos + |t|);
    }
  }

  lemma FractionTaken(s: string, pos: nat, t: string)
    requires FractionText(t) && Sits(s, pos, t) && !DigitAt(s, pos + |t|) && (t == "" ==> !At(s, pos, '.'))
    ensures FractionEnd(s, pos) == Done((), pos + |t|)
  {
    if t != "" {
      SitsAt(s, pos, t, 0);
      DigitsStand(s, pos, t, 1);
      DigitsSkipped(s, pos + 2, pos + |t|);
    }
  }

  lemma ExponentTaken(s: string, pos: nat, t: string)
    requires ExponentText(t) && Sits(s, pos, t) && !DigitAt(s, pos + |t|)
    requires t == "" ==> !At(s, pos, 'e') && !At(s, pos, 'E')
    ensures ExponentEnd(s, pos) == Done((), pos + |t|)
  {
    if t != "" {
      var j := if t[1] == '+' || t[1] == '-' then 2 else 1;
      SitsAt(s, pos, t, 0);
      SitsAt(s, pos, t, 1);
      SignOrDigits(t);
      DigitsStand(s, pos, t, j);
      DigitsSkipped(s, pos + j + 1, pos + |t|);
    }
  }

  lemma SignOrDigits(t: string)
    requires ExponentText(t) && t != ""
    ensures |t| >= 2 && (if t[1] == '+' || t[1] == '-' then |t| >= 3 && AllDigits(t[2..]) else AllDigits(t[1..]))
  {
    assert t[1..][0] == t[1];
  }

  /** Where the parts of a numeral stand in its text. */
  lemma NumeralLaid(n: Numeral)
    ensures var s, a := NumeralText(n), if n.negative then 1 else 0;
            var b := a + |n.integer|;
            var c := b + |n.fraction|;
            && |s| == c + |n.exponent| && (n.negative ==> At(s, 0, '-'))
            && Sits(s, a, n.integer) && Sits(s, b, n.fraction) && Sits(s, c, n.exponent)
  {
    var m, s := if n.negative then "-" else "", NumeralText(n);
    assert s == m + (n.integer + (n.fraction + n.exponent));
    assert Sits(s, 0, s);
    SitsSplit(s, 0, m, n.integer + (n.fraction + n.exponent));
    SitsSplit(s, |m|, n.integer, n.fraction + n.exponent);
    SitsSplit(s, |m| + |n.integer|, n.fraction, n.exponent);
    if n.negative { SitsAt(s, 0, m, 0); }
  }

  lemma Fringes(n: Numeral)
    requires Sound(n)
    ensures n.integer != "" && Digit(n.integer[0]) && (n.fraction != "" ==> n.fraction[0] == '.')
    ensures n.exponent != "" ==> n.exponent[0] == 'e' || n.exponent[0] == 'E'
  {}

  lemma NumeralIsLexeme(n: Numeral)
    requires Sound(n)
    ensures Lexeme(NumeralText(n))
  {
    hide IntegerText, FractionText, ExponentText, IntegerEnd, FractionEnd, ExponentEnd, Sits, NumeralText;
    var s, a := NumeralText(n), if n.negative then 1 else 0;
    var b := a + |n.integer|;
    var c := b + |n.fraction|;
    NumeralLaid(n);
    Fringes(n);
    SitsAt(s, a, n.integer, 0);
    if n.fraction != "" { SitsAt(s, b, n.fraction, 0); }
    if n.exponent != "" { SitsAt(s, c, n.exponent, 0); }
    IntegerTaken(s, a, n.integer);
    FractionTaken(s, b, n.fraction);
    ExponentTaken(s, c, n.exponent);
  }

  lemma TakenInteger(s: string, pos: nat)
    requires pos <= |s| && IntegerEnd(s, pos).Done?
    ensures IntegerText(s[pos..IntegerEnd(s, pos).next])
  {
    if !At(s, pos, '0') { SkippedDigits(s, pos + 1); }
  }

  lemma TakenFraction(s: string, pos: nat)
    requires pos <= |s| && FractionEnd(s, pos).Done?
    ensures FractionText(s[pos..FractionEnd(s, pos).next])
  {
    if At(s, pos, '.') { SkippedDigits(s, pos + 2); }
  }

  lemma TakenExponent(s: string, pos: nat)
    requires pos <= |s| && ExponentEnd(s, pos).Done?
    ensures ExponentText(s[pos..ExponentEnd(s, pos).next])
  {
    if At(s, pos, 'e') || At(s, pos, 'E') {
      var j, n := if At(s, pos + 1, '+') || At(s, pos + 1, '-') then 2 else 1, ExponentEnd(s, pos).next;
      SkippedDigits(s, pos + j + 1);
      var t := s[pos..n];
      forall i | 0 <= i < |t[j..]| ensures Digit(t[j..][i]) {
        assert t[j..][i] == t[j + i] && t[j + i] == s[pos + j + i];
      }
    }
  }

  lemma LexemeIsNumeral(raw: string) returns (n: Numeral)
    requires Lexeme(raw)
    ensures Sound(n) && NumeralText(n) == raw
  {
    hide IntegerText, FractionText, ExponentText, IntegerEnd, FractionEnd, ExponentEnd;
    var a := if At(raw, 0, '-') then 1 else 0;
    var b := IntegerEnd(raw, a).next;
    var c := FractionEnd(raw, b).next;
    TakenInteger(raw, a);
    TakenFraction(raw, b);
    TakenExponent(raw, c);
    n := Numeral(a == 1, raw[a..b], raw[b..c], raw[c..|raw|]);
    Whole(raw, a, b, c);
    assert raw[..a] == if a == 1 then "-" else "";
  }

  lemma Whole(raw: string, a: nat, b: nat, c: nat)
    requires a <= b <= c <= |raw|
    ensures raw[..a] + raw[a..b] + raw[b..c] + raw[c..|raw|] == raw
  {}

  // ---- documents ----

  datatype Tree =
    | TNull
    | TBool(b: bool)
    | TNum(numeral: Numeral)
    | TStr(body: seq<Spelled>)
    /** Blanks between the brackets, or items with commas between them. */
    | TArr(gap: string, items: seq<Item>)
    | TObj(gap: string, fields: seq<Field>)

  /** A value with the blanks around it. */
  datatype Item = Item(before: string, tree: Tree, after: string)

  /** A member: its key with the blanks around it, a colon, its value with the blanks around it. */
  datatype Field = Field(before: string, key: seq<Spelled>, between: string, item: Item)

  predicate Blanks(t: string) { forall i | 0 <= i < |t| :: t[i] in {' ', '\t', '\n', '\r'} }

  function Text(t: Tree): string
    decreases t
  {
    match t
    case TNull => "null"
    case TBool(b) => if b then "true" else "false"
    case TNum(n) => NumeralText(n)
    case TStr(body) => Quotes(body)
    case TArr(gap, items) => "[" + if items == [] then gap + "]" else ItemsText(items)
    case TObj(gap, fields) => "{" + if fields == [] then gap + "}" else FieldsText(fields)
  }

  function Quotes(cs: seq<Spelled>): string { "\"" + (Body(cs) + "\"") }

  function ItemText(x: Item): string
    decreases x
  {
    x.before + (Text(x.tree) + x.after)
  }

  function KeyText(x: Field): string { x.before + (Quotes(x.key) + (x.between + ":")) }

  /** The items, with commas between them, and the closing bracket. */
  function ItemsText(items: seq<Item>): string
    requires items != []
    decreases items
  {
    ItemText(items[0]) + if |items| == 1 then "]" else "," + ItemsText(items[1..])
  }

  function FieldsText(fields: seq<Field>): string
    requires fields != []
    decreases fields
  {
    KeyText(fields[0]) + (ItemText(fields[0].item) + if |fields| == 1 then "}" else "," + FieldsText(fields[1..]))
  }

  function Meaning(t: Tree): Value
    decreases t
  {
    match t
    case TNull => Null
    case TBool(b) => Bool(b)
    case TNum(n) => Num(NumeralText(n))
    case TStr(body) => Str(Said(body))
    case TArr(_, items) => Arr(ItemsMeaning(items))
    case TObj(_, fields) => Obj(FieldsMeaning(fields))
  }

  function ItemsMeaning(items: seq<Item>): (r: seq<Value>)
    ensures |r| == |items|
    decreases items
  {
    if items == [] then [] else [Meaning(items[0].tree)] + ItemsMeaning(items[1..])
  }

  function FieldsMeaning(fields: seq<Field>): (r: seq<Member<Value>>)
    ensures |r| == |fields|
    decreases fields
  {
    if fields == [] then []
    else [Member(Said(fields[0].key), Meaning(fields[0].item.tree))] + FieldsMeaning(fields[1..])
  }

  /** A tree of grammatical pieces, within the limits at its depth, without a repeated key. */
  ghost predicate Grammatical(t: Tree, depth: nat, lim: Limits)
    decreases t
  {
    depth <= lim.maxDepth &&
    match t
    case TNum(n) => Sound(n)
    case TStr(body) => AllSpelled(body)
    case TArr(gap, items) =>
      && Blanks(gap) && |items| <= lim.maxArray
      && forall i | 0 <= i < |items| :: FitsItem(items[i], depth + 1, lim)
    case TObj(gap, fields) =>
      && Blanks(gap) && |fields| <= lim.maxMembers && DistinctKeys(FieldsMeaning(fields))
      && forall i | 0 <= i < |fields| :: FitsField(fields[i], depth + 1, lim)
    case _ => true
  }

  ghost predicate FitsItem(x: Item, depth: nat, lim: Limits)
    decreases x
  {
    Blanks(x.before) && Blanks(x.after) && Grammatical(x.tree, depth, lim)
  }

  ghost predicate FitsField(x: Field, depth: nat, lim: Limits)
    decreases x
  {
    Blanks(x.before) && AllSpelled(x.key) && Blanks(x.between) && FitsItem(x.item, depth, lim)
  }
}
