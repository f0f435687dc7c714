/** The strict parser (crates/watch/src/json.rs; RFC 8259 sections 2 to 7): first as a function of a text and a
    position, then as the program does it, with a cursor. Input bytes have already been decoded: positions count
    scalar values. */
module JsonParser {
  import opened Basics
  import opened Json

  /** Malformed text or a repeated member, or a structural bound. */
  datatype ParseErr = Syntax | Bound

  datatype Limits = Limits(maxBytes: nat, maxDepth: nat, maxMembers: nat, maxArray: nat)

  datatype Result<+T> = Ok(value: T) | Err(error: ParseErr)

  /** A parsed piece and the position after it. */
  datatype Parsed<+T> = Done(value: T, next: nat) | Failed(error: ParseErr)

  // ---- characters ----

  predicate Blank(c: char) { c == ' ' || c == '\t' || c == '\n' || c == '\r' }

  predicate At(s: string, pos: nat, c: char) { pos < |s| && s[pos] == c }
  predicate DigitAt(s: string, pos: nat) { pos < |s| && Digit(s[pos]) }

  function SkipBlanks(s: string, pos: nat): (r: nat)
    requires pos <= |s|
    ensures pos <= r <= |s|
    decreases |s| - pos
  {
    if pos < |s| && Blank(s[pos]) then SkipBlanks(s, pos + 1) else pos
  }

  function SkipDigits(s: string, pos: nat): (r: nat)
    requires pos <= |s|
    ensures pos <= r <= |s|
    decreases |s| - pos
  {
    if DigitAt(s, pos) then SkipDigits(s, pos + 1) else pos
  }

  // ---- numbers ----

  /** After the integer part that starts at `pos`. */
  function IntegerEnd(s: string, pos: nat): (r: Parsed<()>)
    requires pos <= |s|
    ensures r.Done? ==> pos < r.next <= |s|
  {
    if At(s, pos, '0') then Done((), pos + 1)
    else if DigitAt(s, pos) then Done((), SkipDigits(s, pos + 1))
    else Failed(Syntax)
  }

  /** At least one digit, and all that follow. */
  function DigitsEnd(s: string, pos: nat): (r: Parsed<()>)
    requires pos <= |s|
    ensures r.Done? ==> pos < r.next <= |s|
  {
    if DigitAt(s, pos) then Done((), SkipDigits(s, pos + 1)) else Failed(Syntax)
  }

  function FractionEnd(s: string, pos: nat): (r: Parsed<()>)
    requires pos <= |s|
    ensures r.Done? ==> pos <= r.next <= |s|
  {
    if At(s, pos, '.') then DigitsEnd(s, pos + 1) else Done((), pos)
  }

  function ExponentEnd(s: string, pos: nat): (r: Parsed<()>)
    requires pos <= |s|
    ensures r.Done? ==> pos <= r.next <= |s|
  {
    if At(s, pos, 'e') || At(s, pos, 'E') then
      DigitsEnd(s, if At(s, pos + 1, '+') || At(s, pos + 1, '-') then pos + 2 else pos + 1)
    else Done((), pos)
  }

  function NumberEnd(s: string, pos: nat): (r: Parsed<()>)
    requires pos <= |s|
    ensures r.Done? ==> pos < r.next <= |s|
  {
    var i := IntegerEnd(s, if At(s, pos, '-') then pos + 1 else pos);
    if i.Failed? then i
    else
      var f := FractionEnd(s, i.next);
      if f.Failed? then f else ExponentEnd(s, f.next)
  }

  // ---- strings ----

  function HexValue(c: char): int {
    if Digit(c) then c as int - '0' as int
    else if 'a' <= c <= 'f' then c as int - 'a' as int + 10
    else if 'A' <= c <= 'F' then c as int - 'A' as int + 10
    else -1
  }

  /** Four hex digits. */
  function Hex4(s: string, pos: nat): (r: Parsed<nat>)
    ensures r.Done? ==> r.next == pos + 4 <= |s| && r.value < 0x1_0000
  {
    if pos + 4 <= |s| && HexValue(s[pos]) >= 0 && HexValue(s[pos + 1]) >= 0 && HexValue(s[pos + 2]) >= 0
       && HexValue(s[pos + 3]) >= 0
    then
      Done(HexValue(s[pos]) * 0x1000 + HexValue(s[pos + 1]) * 0x100 + HexValue(s[pos + 2]) * 0x10
           + HexValue(s[pos + 3]),
           pos + 4)
    else Failed(Syntax)
  }

  /** The scalar of a \u escape whose digits start at `pos`; a high surrogate needs a low one right after. */
  function UnicodeEscape(s: string, pos: nat): (r: Parsed<char>)
    ensures r.Done? ==> pos < r.next <= |s|
  {
    var hi := Hex4(s, pos);
    if hi.Failed? then Failed(Syntax)
    else if 0xD800 <= hi.value <= 0xDBFF then
      if !At(s, pos + 4, '\\') || !At(s, pos + 5, 'u') then Failed(Syntax)
      else
        var lo := Hex4(s, pos + 6);
        if lo.Failed? || !(0xDC00 <= lo.value <= 0xDFFF) then Failed(Syntax)
        else Done((0x1_0000 + (hi.value - 0xD800) * 0x400 + (lo.value - 0xDC00)) as char, pos + 10)
    else if 0xDC00 <= hi.value <= 0xDFFF then Failed(Syntax)
    else Done(hi.value as char, pos + 4)
  }

  /** What a one-letter escape stands for. */
  function ShortEscape(c: char): string {
    if c == '\"' then "\""
    else if c == '\\' then "\\"
    else if c == '/' then "/"
    else if c == 'b' then [8 as char]
    else if c == 'f' then [12 as char]
    else if c == 'n' then "\n"
    else if c == 'r' then "\r"
    else if c == 't' then "\t"
    else ""
  }

  /** One scalar of a string, not its closing quote. */
  function StringChar(s: string, pos: nat): (r: Parsed<char>)
    requires pos < |s|
    ensures r.Done? ==> pos < r.next <= |s|
  {
    if s[pos] == '\\' then
      if pos + 1 >= |s| then Failed(Syntax)
      else if s[pos + 1] == 'u' then UnicodeEscape(s, pos + 2)
      else if ShortEscape(s[pos + 1]) == "" then Failed(Syntax)
      else Done(ShortEscape(s[pos + 1])[0], pos + 2)
    else if s[pos] < ' ' then Failed(Syntax)
    else Done(s[pos], pos + 1)
  }

  /** The rest of a string, after `out` has been read. */
  function StringFrom(s: string, pos: nat, out: string): (r: Parsed<string>)
    requires pos <= |s|
    ensures r.Done? ==> pos < r.next <= |s|
    decreases |s| - pos
  {
    if pos == |s| then Failed(Syntax)
    else if s[pos] == '\"' then Done(out, pos + 1)
    else
      var c := StringChar(s, pos);
      if c.Failed? then Failed(Syntax) else StringFrom(s, c.next, out + [c.value])
  }

  // ---- values ----

  predicate StartsWith(s: string, pos: nat, lit: string)
    requires pos <= |s|
  {
    |lit| <= |s| - pos && s[pos..pos + |lit|] == lit
  }

  function Literal(s: string, pos: nat, lit: string, v: Value): (r: Parsed<Value>)
    requires pos <= |s|
    ensures r.Done? ==> pos + |lit| == r.next <= |s|
  {
    if StartsWith(s, pos, lit) then Done(v, pos + |lit|) else Failed(Syntax)
  }

  function ValueAt(s: string, start: nat, depth: nat, lim: Limits): (r: Parsed<Value>)
    requires start <= |s| && depth <= lim.maxDepth + 1
    ensures r.Done? ==> start < r.next <= |s|
    decreases lim.maxDepth + 1 - depth, 1, 0
  {
    if depth > lim.maxDepth then Failed(Bound)
    else
      var pos := SkipBlanks(s, start);
      if pos == |s| then Failed(Syntax)
      else if s[pos] == '{' then
        var p := SkipBlanks(s, pos + 1);
        if At(s, p, '}') then Done(Obj([]), p + 1) else MembersFrom(s, p, depth, lim, [])
      else if s[pos] == '[' then
        var p := SkipBlanks(s, pos + 1);
        if At(s, p, ']') then Done(Arr([]), p + 1) else ItemsFrom(s, p, depth, lim, [])
      else if s[pos] == '\"' then
        var t := StringFrom(s, pos + 1, "");
        if t.Failed? then Failed(t.error) else Done(Str(t.value), t.next)
      else if s[pos] == 't' then Literal(s, pos, "true", Bool(true))
      else if s[pos] == 'f' then Literal(s, pos, "false", Bool(false))
      else if s[pos] == 'n' then Literal(s, pos, "null", Null)
      else if s[pos] == '-' || Digit(s[pos]) then
        var n := NumberEnd(s, pos);
        if n.Failed? then Failed(n.error) else Done(Num(s[pos..n.next]), n.next)
      else Failed(Syntax)
  }

  /** The items of an array from `pos` on, after those in `items`. */
  function ItemsFrom(s: string, pos: nat, depth: nat, lim: Limits, items: seq<Value>): (r: Parsed<Value>)
    requires pos <= |s| && depth <= lim.maxDepth
    ensures r.Done? ==> pos < r.next <= |s|
    decreases lim.maxDepth + 1 - depth, 0, |s| - pos
  {
    var v := ValueAt(s, pos, depth + 1, lim);
    if v.Failed? then v
    else if |items| + 1 > lim.maxArray then Failed(Bound)
    else
      var p := SkipBlanks(s, v.next);
      if At(s, p, ',') then ItemsFrom(s, p + 1, depth, lim, items + [v.value])
      else if At(s, p, ']') then Done(Arr(items + [v.value]), p + 1)
      else Failed(Syntax)
  }

  predicate HasKey(ms: seq<Member<Value>>, key: string) { exists i | 0 <= i < |ms| :: ms[i].key == key }

  /** A key and its colon. */
  function KeyFrom(s: string, pos: nat): (r: Parsed<string>)
    requires pos <= |s|
    ensures r.Done? ==> pos < r.next <= |s|
  {
    var q := SkipBlanks(s, pos);
    if !At(s, q, '\"') then Failed(Syntax)
    else
      var key := StringFrom(s, q + 1, "");
      if key.Failed? then key
      else
        var c := SkipBlanks(s, key.next);
        if At(s, c, ':') then Done(key.value, c + 1) else Failed(Syntax)
  }

  /** The members of an object from `pos` on, after those in `ms`. */
  function MembersFrom(s: string, pos: nat, depth: nat, lim: Limits, ms: seq<Member<Value>>): (r: Parsed<Value>)
    requires pos <= |s| && depth <= lim.maxDepth
    ensures r.Done? ==> pos < r.next <= |s|
    decreases lim.maxDepth + 1 - depth, 0, |s| - pos
  {
    var key := KeyFrom(s, pos);
    if key.Failed? then Failed(key.error)
    else
      var v := ValueAt(s, key.next, depth + 1, lim);
      if v.Failed? then v
      else if HasKey(ms, key.value) then Failed(Syntax)
      else if |ms| + 1 > lim.maxMembers then Failed(Bound)
      else
        var p := SkipBlanks(s, v.next);
        if At(s, p, ',') then MembersFrom(s, p + 1, depth, lim, ms + [Member(key.value, v.value)])
        else if At(s, p, '}') then Done(Obj(ms + [Member(key.value, v.value)]), p + 1)
        else Failed(Syntax)
  }

  const BOM: char := 0xFEFF as char

  function Parse(s: string, lim: Limits): Result<Value> {
    if Bytes(s) > lim.maxBytes || s == "" then Err(Bound)
    else if s[0] == BOM then Err(Syntax)
    else
      var v := ValueAt(s, 0, 0, lim);
      if v.Failed? then Err(v.error)
      else if SkipBlanks(s, v.next) != |s| then Err(Syntax)
      else Ok(v.value)
  }
}
