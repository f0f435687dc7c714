/** Parser and printer as the program runs them (crates/watch/src/json.rs): a cursor over the input, a growing
    output. */
module JsonProgram {
  import opened Basics
  import opened Json
  import opened JsonParser

  ghost predicate Agrees<T>(p: Parsed<T>, r: Result<T>, pos: nat) {
    match p
    case Done(v, next) => r == Ok(v) && pos == next
    case Failed(e) => r == Err(e)
  }

  class Parser {
    const s: string
    const lim: Limits
    var pos: nat

    ghost predicate Valid()
      reads this
    {
      pos <= |s|
    }

    constructor (s: string, lim: Limits)
      ensures this.s == s && this.lim == lim && pos == 0 && Valid()
    {
      this.s, this.lim, pos := s, lim, 0;
    }

    method Blanks()
      requires Valid()
      modifies this
      ensures Valid() && pos == SkipBlanks(s, old(pos))
    {
      while pos < |s| && Blank(s[pos])
        invariant Valid() && SkipBlanks(s, pos) == SkipBlanks(s, old(pos))
      {
        pos := pos + 1;
      }
    }

    method Digits()
      requires Valid()
      modifies this
      ensures Valid() && pos == SkipDigits(s, old(pos))
    {
      while pos < |s| && Digit(s[pos])
        invariant Valid() && SkipDigits(s, pos) == SkipDigits(s, old(pos))
      {
        pos := pos + 1;
      }
    }

    method SomeDigits() returns (r: Result<()>)
      requires Valid()
      modifies this
      ensures Valid() && Agrees(DigitsEnd(s, old(pos)), r, pos)
    {
      if !DigitAt(s, pos) { return Err(Syntax); }
      pos := pos + 1;
      Digits();
      return Ok(());
    }

    method IntegerPart() returns (r: Result<()>)
      requires Valid()
      modifies this
      ensures Valid() && Agrees(IntegerEnd(s, old(pos)), r, pos)
    {
      if At(s, pos, '0') { pos := pos + 1; return Ok(()); }
      r := SomeDigits();
    }

    method FractionPart() returns (r: Result<()>)
      requires Valid()
      modifies this
      ensures Valid() && Agrees(FractionEnd(s, old(pos)), r, pos)
    {
      if !At(s, pos, '.') { return Ok(()); }
      pos := pos + 1;
      r := SomeDigits();
    }

    method ExponentPart() returns (r: Result<()>)
      requires Valid()
      modifies this
      ensures Valid() && Agrees(ExponentEnd(s, old(pos)), r, pos)
    {
      if !At(s, pos, 'e') && !At(s, pos, 'E') { return Ok(()); }
      pos := pos + 1;
      if At(s, pos, '+') || At(s, pos, '-') { pos := pos + 1; }
      r := SomeDigits();
    }

    method NumberParts() returns (r: Result<()>)
      requires Valid()
      modifies this
      ensures Valid() && Agrees(NumberEnd(s, old(pos)), r, pos)
    {
      hide IntegerEnd, FractionEnd, ExponentEnd;
      if At(s, pos, '-') { pos := pos + 1; }
      r := IntegerPart();
      if r.Err? { return; }
      r := FractionPart();
      if r.Err? { return; }
      r := ExponentPart();
    }

    method Number() returns (r: Result<Value>)
      requires Valid()
      modifies this
      ensures Valid()
      ensures var n := NumberEnd(s, old(pos));
              if n.Done? then r == Ok(Num(s[old(pos)..n.next])) && pos == n.next else r == Err(n.error)
    {
      var start := pos;
      var end := NumberParts();
      if end.Err? { return Err(end.error); }
      return Ok(Num(s[start..pos]));
    }

    method Hex() returns (r: Result<nat>)
      requires Valid()
      modifies this
      ensures Valid() && Agrees(Hex4(s, old(pos)), r, pos)
    {
      hide HexValue;
      var v: nat, i, start := 0, 0, pos;
      while i < 4
        invariant i <= 4 && pos == start + i <= |s|
        invariant (i > 0 ==> HexValue(s[start]) >= 0) && (i > 1 ==> HexValue(s[start + 1]) >= 0)
        invariant (i > 2 ==> HexValue(s[start + 2]) >= 0) && (i > 3 ==> HexValue(s[start + 3]) >= 0)
        invariant v == (if i == 0 then 0
                        else if i == 1 then HexValue(s[start])
                        else if i == 2 then HexValue(s[start]) * 0x10 + HexValue(s[start + 1])
                        else if i == 3 then
                          HexValue(s[start]) * 0x100 + HexValue(s[start + 1]) * 0x10 + HexValue(s[start + 2])
                        else
                          HexValue(s[start]) * 0x1000 + HexValue(s[start + 1]) * 0x100
                          + HexValue(s[start + 2]) * 0x10 + HexValue(s[start + 3]))
      {
        if pos == |s| { return Err(Syntax); }
        var d := HexValue(s[pos]);
        pos := pos + 1;
        if d < 0 { return Err(Syntax); }
        v := v * 0x10 + d;
        i := i + 1;
      }
      return Ok(v);
    }

    method Unicode() returns (r: Result<char>)
      requires Valid()
      modifies this
      ensures Valid() && Agrees(UnicodeEscape(s, old(pos)), r, pos)
    {
      var hi := Hex();
      if hi.Err? { return Err(Syntax); }
      if 0xD800 <= hi.value <= 0xDBFF {
        if !At(s, pos, '\\') { return Err(Syntax); }
        pos := pos + 1;
        if !At(s, pos, 'u') { return Err(Syntax); }
        pos := pos + 1;
        var lo := Hex();
        if lo.Err? || !(0xDC00 <= lo.value <= 0xDFFF) { return Err(Syntax); }
        return Ok((0x1_0000 + (hi.value - 0xD800) * 0x400 + (lo.value - 0xDC00)) as char);
      }
      if 0xDC00 <= hi.value <= 0xDFFF { return Err(Syntax); }
      return Ok(hi.value as char);
    }

    /** The rest of a string after its opening quote. */
    method String() returns (r: Result<string>)
      requires Valid()
      modifies this
      ensures Valid() && Agrees(StringFrom(s, old(pos), ""), r, pos)
    {
      hide UnicodeEscape, ShortEscape;
      var out := "";
      while true
        invariant Valid() && StringFrom(s, pos, out) == StringFrom(s, old(pos), "")
        decreases |s| - pos
      {
        if pos == |s| { return Err(Syntax); }
        var c := s[pos];
        pos := pos + 1;
        if c == '\"' { return Ok(out); }
        if c == '\\' {
          if pos == |s| { return Err(Syntax); }
          var e := s[pos];
          pos := pos + 1;
          if e == 'u' {
            var u := Unicode();
            if u.Err? { return Err(Syntax); }
            out := out + [u.value];
          } else {
            if ShortEscape(e) == "" { return Err(Syntax); }
            out := out + [ShortEscape(e)[0]];
          }
        } else {
          if c < ' ' { return Err(Syntax); }
          out := out + [c];
        }
      }
    }

    method Lit(lit: string, v: Value) returns (r: Result<Value>)
      requires Valid()
      modifies this
      ensures Valid() && Agrees(Literal(s, old(pos), lit, v), r, pos)
    {
      if !StartsWith(s, pos, lit) { return Err(Syntax); }
      pos := pos + |lit|;
      return Ok(v);
    }

    method Key() returns (r: Result<string>)
      requires Valid()
      modifies this
      ensures Valid() && Agrees(KeyFrom(s, old(pos)), r, pos)
    {
      Blanks();
      if !At(s, pos, '\"') { return Err(Syntax); }
      pos := pos + 1;
      r := String();
      if r.Err? { return; }
      Blanks();
      if !At(s, pos, ':') { return Err(Syntax); }
      pos := pos + 1;
    }

    method ParseValue(depth: nat) returns (r: Result<Value>)
      requires Valid() && depth <= lim.maxDepth + 1
      modifies this
      ensures Valid() && Agrees(ValueAt(s, old(pos), depth, lim), r, pos)
      decreases lim.maxDepth + 1 - depth, 1
    {
      if depth > lim.maxDepth { return Err(Bound); }
      Blanks();
      if pos == |s| { return Err(Syntax); }
      var c := s[pos];
      if c == '{' {
        r := Object(depth);
      } else if c == '[' {
        r := Array(depth);
      } else if c == '\"' {
        pos := pos + 1;
        var t := String();
        r := if t.Ok? then Ok(Str(t.value)) else Err(t.error);
      } else if c == 't' {
        r := Lit("true", Bool(true));
      } else if c == 'f' {
        r := Lit("false", Bool(false));
      } else if c == 'n' {
        r := Lit("null", Null);
      } else if c == '-' || Digit(c) {
        r := Number();
      } else {
        r := Err(Syntax);
      }
    }

    method Array(depth: nat) returns (r: Result<Value>)
      requires Valid() && depth <= lim.maxDepth && At(s, pos, '[')
      modifies this
      ensures Valid()
      ensures var p := SkipBlanks(s, old(pos) + 1);
              Agrees(if At(s, p, ']') then Done(Arr([]), p + 1) else ItemsFrom(s, p, depth, lim, []), r, pos)
      decreases lim.maxDepth + 1 - depth, 0
    {
      hide ValueAt, SkipBlanks, Blank;
      pos := pos + 1;
      var items := [];
      Blanks();
      if At(s, pos, ']') { pos := pos + 1; return Ok(Arr(items)); }
      ghost var start := pos;
      while true
        invariant Valid() && ItemsFrom(s, pos, depth, lim, items) == ItemsFrom(s, start, depth, lim, [])
        decreases |s| - pos
      {
        var v := ParseValue(depth + 1);
        if v.Err? { return v; }
        items := items + [v.value];
        if |items| > lim.maxArray { return Err(Bound); }
        Blanks();
        if At(s, pos, ',') {
          pos := pos + 1;
        } else if At(s, pos, ']') {
          pos := pos + 1;
          return Ok(Arr(items));
        } else {
          return Err(Syntax);
        }
      }
    }

    method Object(depth: nat) returns (r: Result<Value>)
      requires Valid() && depth <= lim.maxDepth && At(s, pos, '{')
      modifies this
      ensures Valid()
      ensures var p := SkipBlanks(s, old(pos) + 1);
              Agrees(if At(s, p, '}') then Done(Obj([]), p + 1) else MembersFrom(s, p, depth, lim, []), r, pos)
      decreases lim.maxDepth + 1 - depth, 0
    {
      hide ValueAt, SkipBlanks, Blank, KeyFrom, HasKey;
      pos := pos + 1;
      var ms: seq<Member<Value>> := [];
      Blanks();
      if At(s, pos, '}') { pos := pos + 1; return Ok(Obj(ms)); }
      ghost var start := pos;
      while true
        invariant Valid() && MembersFrom(s, pos, depth, lim, ms) == MembersFrom(s, start, depth, lim, [])
        decreases |s| - pos
      {
        var key := Key();
        if key.Err? { return Err(key.error); }
        var v := ParseValue(depth + 1);
        if v.Err? { return v; }
        if HasKey(ms, key.value) { return Err(Syntax); }
        ms := ms + [Member(key.value, v.value)];
        if |ms| > lim.maxMembers { return Err(Bound); }
        Blanks();
        if At(s, pos, ',') {
          pos := pos + 1;
        } else if At(s, pos, '}') {
          pos := pos + 1;
          return Ok(Obj(ms));
        } else {
          return Err(Syntax);
        }
      }
    }
  }

  method ParseDocument(s: string, lim: Limits) returns (r: Result<Value>)
    ensures r == Parse(s, lim)
  {
    if Bytes(s) > lim.maxBytes || s == "" { return Err(Bound); }
    if s[0] == BOM { return Err(Syntax); }
    var p := new Parser(s, lim);
    r := p.ParseValue(0);
    if r.Err? { return; }
    p.Blanks();
    if p.pos != |s| { return Err(Syntax); }
  }

  // ---- the printer ----

  class Output {
    var text: string

    constructor ()
      ensures text == ""
    {
      text := "";
    }

    method Push(t: string)
      modifies this
      ensures text == old(text) + t
    {
      text := text + t;
    }

    method EscapeInto(t: string)
      modifies this
      ensures text == old(text) + Escape(t)
    {
      hide Escape1;
      var i := 0;
      while i < |t|
        invariant i <= |t| && text + Escape(t[i..]) == old(text) + Escape(t)
      {
        assert t[i..][0] == t[i] && t[i..][1..] == t[i + 1..];
        text := text + Escape1(t[i]);
        i := i + 1;
      }
    }

    method QuoteInto(t: string)
      modifies this
      ensures text == old(text) + Quoted(t)
    {
      hide Escape;
      Push("\"");
      EscapeInto(t);
      Push("\"");
    }

    method JcsInto(v: Value)
      modifies this
      ensures text == old(text) + Print(v)
      decreases v
    {
      hide Quoted, Commas, Pairs, Sort, PrintItems, PrintMembers;
      match v
      case Null => Push("null");
      case Bool(b) => Push(if b then "true" else "false");
      case Num(raw) => Push(raw);
      case Str(t) => QuoteInto(t);
      case Arr(items) =>
        Push("[");
        ItemsInto(items);
        Push("]");
      case Obj(members) =>
        Push("{");
        MembersInto(members);
        Push("}");
    }

    method ItemsInto(items: seq<Value>)
      modifies this
      ensures text == old(text) + Commas(PrintItems(items))
      decreases items
    {
      hide Print, Joined;
      ghost var parts := PrintItems(items);
      NothingJoined(parts);
      var i := 0;
      while i < |items|
        invariant i <= |items| && text == old(text) + Joined(parts[..i])
      {
        if i > 0 { Push(","); }
        JcsInto(items[i]);
        JoinedSnoc(parts, i);
        i := i + 1;
      }
      JoinedIsCommas(parts);
    }

    method MembersInto(members: seq<Member<Value>>)
      modifies this
      ensures text == old(text) + Commas(Pairs(Sort(PrintMembers(members))))
      decreases members, 1
    {
      hide Print, Joined, Sort, Quoted;
      var sorted := Sort(members);
      ghost var pairs := Pairs(Sort(PrintMembers(members)));
      SortedPairs(members);
      NothingJoined(pairs);
      var i := 0;
      while i < |sorted|
        invariant i <= |sorted| && text == old(text) + Joined(pairs[..i])
      {
        if i > 0 { Push(","); }
        SortedMember(members, i);
        MemberInto(members, sorted[i]);
        JoinedSnoc(pairs, i);
        i := i + 1;
      }
      JoinedIsCommas(pairs);
    }

    method MemberInto(ghost members: seq<Member<Value>>, m: Member<Value>)
      requires exists j | 0 <= j < |members| :: m == members[j]
      modifies this
      ensures text == old(text) + (Quoted(m.key) + ":" + Print(m.value))
      decreases members, 0
    {
      hide Print, Quoted;
      QuoteInto(m.key);
      Push(":");
      ghost var j :| 0 <= j < |members| && m == members[j];
      JcsInto(m.value);
    }
  }

  lemma NothingJoined(parts: seq<string>)
    ensures Joined(parts[..0]) == ""
  {}

  /** Parts with commas between them, counted from the end. */
  function Joined(parts: seq<string>): string {
    if parts == [] then "" else
    if |parts| == 1 then parts[0] else Joined(parts[..|parts| - 1]) + "," + parts[|parts| - 1]
  }

  lemma JoinedSnoc(parts: seq<string>, i: nat)
    requires i < |parts|
    ensures Joined(parts[..i + 1]) == Joined(parts[..i]) + (if i > 0 then "," else "") + parts[i]
  {
    assert parts[..i + 1][..i] == parts[..i];
  }

  lemma {:induction false} JoinedCons(x: string, parts: seq<string>)
    requires parts != []
    ensures Joined([x] + parts) == x + "," + Joined(parts)
  {
    var all, n := [x] + parts, |parts| - 1;
    if n > 0 {
      assert all[..|all| - 1] == [x] + parts[..n];
      JoinedCons(x, parts[..n]);
    }
  }

  lemma {:induction false} JoinedIsCommas(parts: seq<string>)
    ensures Joined(parts[..|parts|]) == Commas(parts)
  {
    assert parts[..|parts|] == parts;
    if |parts| > 1 {
      JoinedIsCommas(parts[1..]);
      assert parts[1..][..|parts| - 1] == parts[1..];
      assert parts == [parts[0]] + parts[1..];
      JoinedCons(parts[0], parts[1..]);
    }
  }

  lemma SortedMember(ms: seq<Member<Value>>, i: nat)
    requires i < |ms|
    ensures exists j | 0 <= j < |ms| :: Sort(ms)[i] == ms[j]
  {
    SortHas(ms);
    assert Sort(ms)[i] in multiset(Sort(ms));
    assert Sort(ms)[i] in ms;
  }

  /** Sorting looks at keys only, so it commutes with printing the values. */
  lemma {:induction false} InsertPrinted(s: seq<Member<Value>>, t: seq<Member<string>>, x: Member<Value>)
    requires |s| == |t| && forall i | 0 <= i < |s| :: t[i] == Member(s[i].key, Print(s[i].value))
    ensures var a, b := Insert(s, x), Insert(t, Member(x.key, Print(x.value)));
            |a| == |b| && forall i | 0 <= i < |a| :: b[i] == Member(a[i].key, Print(a[i].value))
  {
    hide KeyLess, Print;
    if s != [] && !KeyLess(x.key, s[0].key) { InsertPrinted(s[1..], t[1..], x); }
  }

  lemma {:induction false} SortPrinted(ms: seq<Member<Value>>)
    ensures var a, b := Sort(ms), Sort(PrintMembers(ms));
            |a| == |b| && forall i | 0 <= i < |a| :: b[i] == Member(a[i].key, Print(a[i].value))
  {
    if ms != [] {
      var n := |ms| - 1;
      SortPrinted(ms[..n]);
      assert PrintMembers(ms)[..n] == PrintMembers(ms[..n]);
      InsertPrinted(Sort(ms[..n]), Sort(PrintMembers(ms[..n])), ms[n]);
    }
  }

  lemma SortedPairs(ms: seq<Member<Value>>)
    ensures var sorted, pairs := Sort(ms), Pairs(Sort(PrintMembers(ms)));
            |sorted| == |pairs| && forall i | 0 <= i < |sorted| ::
                pairs[i] == Quoted(sorted[i].key) + ":" + Print(sorted[i].value)
  {
    SortPrinted(ms);
  }

  method Jcs(v: Value) returns (t: string)
    ensures t == Print(v)
  {
    var out := new Output();
    out.JcsInto(v);
    t := out.text;
  }
}
