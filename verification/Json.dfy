/** JSON values and their canonical text (crates/watch/src/json.rs; RFC 8785 sections 3.2.1 to 3.2.3), over Unicode
    scalar values. */
module Json {
  import opened Basics

  datatype Member<+T> = Member(key: string, value: T)

  datatype Value =
    | Null
    | Bool(b: bool)
    /** The lexeme as it stood on the wire. */
    | Num(raw: string)
    | Str(text: string)
    | Arr(items: seq<Value>)
    | Obj(members: seq<Member<Value>>)

  // ---- UTF-8 sizes ----

  function Utf8Len(c: char): nat {
    if c < 0x80 as char then 1 else if c < 0x800 as char then 2 else if c < 0x1_0000 as char then 3 else 4
  }

  /** The bytes a text takes. */
  function Bytes(t: string): nat {
    if t == "" then 0 else Bytes(t[..|t| - 1]) + Utf8Len(t[|t| - 1])
  }

  lemma {:induction false} BytesAppend(a: string, b: string)
    ensures Bytes(a + b) == Bytes(a) + Bytes(b)
  {
    if b == "" {
      assert a + b == a;
    } else {
      BytesAppend(a, b[..|b| - 1]);
      assert (a + b)[..|a + b| - 1] == a + b[..|b| - 1];
    }
  }

  // ---- UTF-16 key order ----

  function Units(c: char): seq<nat> {
    var n := c as int;
    if n < 0x1_0000 then [n] else [0xD800 + (n - 0x1_0000) / 0x400, 0xDC00 + (n - 0x1_0000) % 0x400]
  }

  function Utf16(t: string): seq<nat> { if t == "" then [] else Units(t[0]) + Utf16(t[1..]) }

  predicate KeyLess(a: string, b: string) { Below(Utf16(a), Utf16(b)) }

  lemma UnitsDecode(c: char, d: char)
    requires Units(c)[0] == Units(d)[0] && (|Units(c)| == 2 && |Units(d)| == 2 ==> Units(c) == Units(d))
    ensures c == d
  {}

  lemma {:induction false} Utf16Injective(a: string, b: string)
    requires Utf16(a) == Utf16(b)
    ensures a == b
  {
    if a == "" || b == "" {
      assert a != "" ==> |Utf16(a)| > 0;
      assert b != "" ==> |Utf16(b)| > 0;
    } else {
      var u, v := Units(a[0]), Units(b[0]);
      assert Utf16(a)[0] == u[0] && Utf16(b)[0] == v[0];
      if |u| == 2 && |v| == 2 { assert Utf16(a)[1] == u[1] && Utf16(b)[1] == v[1]; }
      UnitsDecode(a[0], b[0]);
      assert Utf16(a)[|u|..] == Utf16(a[1..]) && Utf16(b)[|u|..] == Utf16(b[1..]);
      Utf16Injective(a[1..], b[1..]);
      assert a == [a[0]] + a[1..] && b == [b[0]] + b[1..];
    }
  }

  lemma KeyOrder(a: string, b: string, c: string)
    ensures KeyLess(a, b) || KeyLess(b, a) || a == b
    ensures !(KeyLess(a, b) && KeyLess(b, a)) && !KeyLess(a, a)
    ensures KeyLess(a, b) && KeyLess(b, c) ==> KeyLess(a, c)
  {
    BelowTotal(Utf16(a), Utf16(b));
    BelowTotal(Utf16(a), Utf16(a));
    if Utf16(a) == Utf16(b) { Utf16Injective(a, b); }
    if KeyLess(a, b) && KeyLess(b, c) { BelowTransitive(Utf16(a), Utf16(b), Utf16(c)); }
  }

  // ---- sorting members ----

  function Insert<T>(s: seq<Member<T>>, x: Member<T>): (r: seq<Member<T>>)
    ensures |r| == |s| + 1
  {
    if s == [] then [x] else if KeyLess(x.key, s[0].key) then [x] + s else [s[0]] + Insert(s[1..], x)
  }

  /** A stable sort by key. */
  function Sort<T>(ms: seq<Member<T>>): (r: seq<Member<T>>)
    ensures |r| == |ms|
  {
    if ms == [] then [] else Insert(Sort(ms[..|ms| - 1]), ms[|ms| - 1])
  }

  ghost predicate DistinctKeys<T>(ms: seq<Member<T>>) { forall i, j | 0 <= i < j < |ms| :: ms[i].key != ms[j].key }
  ghost predicate InOrder<T>(ms: seq<Member<T>>) { forall i, j | 0 <= i < j < |ms| :: KeyLess(ms[i].key, ms[j].key) }

  lemma ConsHas<T>(x: T, s: seq<T>)
    ensures multiset([x] + s) == multiset{x} + multiset(s)
  {}

  lemma {:induction false} InsertHas<T>(s: seq<Member<T>>, x: Member<T>)
    ensures multiset(Insert(s, x)) == multiset(s) + multiset{x}
  {
    hide KeyLess;
    if s != [] {
      if KeyLess(x.key, s[0].key) {
        ConsHas(x, s);
      } else {
        InsertHas(s[1..], x);
        ConsHas(s[0], s[1..]);
        ConsHas(s[0], Insert(s[1..], x));
        assert s == [s[0]] + s[1..];
      }
    }
  }

  lemma {:induction false} SortHas<T>(ms: seq<Member<T>>)
    ensures multiset(Sort(ms)) == multiset(ms)
  {
    hide KeyLess, Insert;
    if ms != [] {
      SortHas(ms[..|ms| - 1]);
      InsertHas(Sort(ms[..|ms| - 1]), ms[|ms| - 1]);
      assert ms == ms[..|ms| - 1] + [ms[|ms| - 1]];
    }
  }

  lemma {:induction false} InsertInOrder<T>(s: seq<Member<T>>, x: Member<T>)
    requires InOrder(s) && forall i | 0 <= i < |s| :: s[i].key != x.key
    ensures InOrder(Insert(s, x))
  {
    hide KeyLess;
    if s != [] {
      KeyOrder(x.key, s[0].key, x.key);
      if KeyLess(x.key, s[0].key) {
        forall j | 0 <= j < |s| ensures KeyLess(x.key, s[j].key) { KeyOrder(x.key, s[0].key, s[j].key); }
      } else {
        InsertInOrder(s[1..], x);
        var rest := Insert(s[1..], x);
        InsertHas(s[1..], x);
        forall j | 0 <= j < |rest| ensures KeyLess(s[0].key, rest[j].key) {
          assert rest[j] in multiset(rest);
          if rest[j] in s[1..] { assert exists k | 0 < k < |s| :: s[k] == rest[j]; } else { assert rest[j] == x; }
        }
      }
    }
  }

  lemma {:induction false} SortInOrder<T>(ms: seq<Member<T>>)
    requires DistinctKeys(ms)
    ensures InOrder(Sort(ms))
  {
    hide KeyLess, Insert;
    if ms != [] {
      var pre, x := ms[..|ms| - 1], ms[|ms| - 1];
      SortInOrder(pre);
      SortHas(pre);
      forall i | 0 <= i < |pre| ensures Sort(pre)[i].key != x.key {
        assert Sort(pre)[i] in multiset(Sort(pre));
        assert Sort(pre)[i] in pre;
      }
      InsertInOrder(Sort(pre), x);
    }
  }

  lemma {:induction false} InsertLast<T>(s: seq<Member<T>>, x: Member<T>)
    requires forall i | 0 <= i < |s| :: KeyLess(s[i].key, x.key)
    ensures Insert(s, x) == s + [x]
  {
    hide KeyLess;
    if s != [] {
      KeyOrder(s[0].key, x.key, x.key);
      InsertLast(s[1..], x);
      assert s == [s[0]] + s[1..];
    }
  }

  /** Sorting what is in order changes nothing. */
  lemma {:induction false} SortSorted<T>(ms: seq<Member<T>>)
    requires InOrder(ms)
    ensures Sort(ms) == ms
  {
    hide KeyLess, Insert;
    if ms != [] {
      SortSorted(ms[..|ms| - 1]);
      InsertLast(ms[..|ms| - 1], ms[|ms| - 1]);
    }
  }

  // ---- canonical text ----

  const HEX: string := "0123456789abcdef"

  function Escape1(c: char): (r: string)
    ensures r != ""
  {
    if c == '\"' then "\\\""
    else if c == '\\' then "\\\\"
    else if c == 8 as char then "\\b"
    else if c == 9 as char then "\\t"
    else if c == 10 as char then "\\n"
    else if c == 12 as char then "\\f"
    else if c == 13 as char then "\\r"
    else if c < ' ' then "\\u00" + [HEX[c as int / 16], HEX[c as int % 16]]
    else [c]
  }

  function Escape(t: string): string { if t == "" then "" else Escape1(t[0]) + Escape(t[1..]) }

  function Quoted(t: string): string { "\"" + Escape(t) + "\"" }

  /** Every value with its members' values in canonical form and its members in key order. */
  function Canon(v: Value): Value
    decreases v
  {
    match v
    case Arr(items) => Arr(CanonItems(items))
    case Obj(ms) => Obj(Sort(CanonMembers(ms)))
    case _ => v
  }

  function CanonItems(items: seq<Value>): (r: seq<Value>)
    ensures |r| == |items| && forall i | 0 <= i < |items| :: r[i] == Canon(items[i])
    decreases items
  {
    if items == [] then [] else [Canon(items[0])] + CanonItems(items[1..])
  }

  function CanonMembers(ms: seq<Member<Value>>): (r: seq<Member<Value>>)
    ensures |r| == |ms| && forall i | 0 <= i < |ms| :: r[i] == Member(ms[i].key, Canon(ms[i].value))
    decreases ms
  {
    if ms == [] then [] else [Member(ms[0].key, Canon(ms[0].value))] + CanonMembers(ms[1..])
  }

  function Print(v: Value): string
    decreases v
  {
    match v
    case Null => "null"
    case Bool(b) => if b then "true" else "false"
    case Num(raw) => raw
    case Str(t) => Quoted(t)
    case Arr(items) => "[" + Commas(PrintItems(items)) + "]"
    case Obj(ms) => "{" + Commas(Pairs(Sort(PrintMembers(ms)))) + "}"
  }

  function PrintItems(items: seq<Value>): (r: seq<string>)
    ensures |r| == |items| && forall i | 0 <= i < |items| :: r[i] == Print(items[i])
    decreases items
  {
    if items == [] then [] else [Print(items[0])] + PrintItems(items[1..])
  }

  function PrintMembers(ms: seq<Member<Value>>): (r: seq<Member<string>>)
    ensures |r| == |ms| && forall i | 0 <= i < |ms| :: r[i] == Member(ms[i].key, Print(ms[i].value))
    decreases ms
  {
    if ms == [] then [] else [Member(ms[0].key, Print(ms[0].value))] + PrintMembers(ms[1..])
  }

  function Pair(x: Member<string>): string { Quoted(x.key) + ":" + x.value }

  function Pairs(xs: seq<Member<string>>): (r: seq<string>)
    ensures |r| == |xs| && forall i | 0 <= i < |xs| :: r[i] == Pair(xs[i])
  {
    seq(|xs|, i requires 0 <= i < |xs| => Pair(xs[i]))
  }

  function Commas(parts: seq<string>): string {
    if parts == [] then "" else
    if |parts| == 1 then parts[0] else parts[0] + "," + Commas(parts[1..])
  }
}
