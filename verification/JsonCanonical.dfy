/** Parsing and printing undo each other (RFC 8785 section 3.2; crates/watch/tests/fuzz.rs asserts a part of it). */
module JsonCanonical {
  import opened Basics
  import opened Json
  import opened JsonParser
  import opened JsonPieces

  // ---- well-formed values ----

  /** What the parser can return at a depth under the limits. */
  ghost predicate WellFormed(v: Value, depth: nat, lim: Limits)
    decreases v
  {
    depth <= lim.maxDepth &&
    match v
    case Num(raw) => Lexeme(raw)
    case Arr(items) => |items| <= lim.maxArray && forall i | 0 <= i < |items| :: WellFormed(items[i], depth + 1, lim)
    case Obj(ms) =>
      |ms| <= lim.maxMembers && DistinctKeys(ms) && forall i | 0 <= i < |ms| :: WellFormed(ms[i].value, depth + 1, lim)
    case _ => true
  }

  // ---- sorting commutes with what is done to the values ----

  function Mapped<T, U>(ms: seq<Member<T>>, f: T -> U): (r: seq<Member<U>>)
    ensures |r| == |ms| && forall i | 0 <= i < |ms| :: r[i] == Member(ms[i].key, f(ms[i].value))
  {
    seq(|ms|, i requires 0 <= i < |ms| => Member(ms[i].key, f(ms[i].value)))
  }

  lemma {:induction false} InsertMapped<T, U>(s: seq<Member<T>>, x: Member<T>, f: T -> U)
    ensures Insert(Mapped(s, f), Member(x.key, f(x.value))) == Mapped(Insert(s, x), f)
  {
    hide KeyLess;
    if s != [] && !KeyLess(x.key, s[0].key) {
      InsertMapped(s[1..], x, f);
      assert Mapped(s, f)[1..] == Mapped(s[1..], f);
    }
  }

  lemma {:induction false} SortMapped<T, U>(ms: seq<Member<T>>, f: T -> U)
    ensures Sort(Mapped(ms, f)) == Mapped(Sort(ms), f)
  {
    if ms != [] {
      var n := |ms| - 1;
      SortMapped(ms[..n], f);
      assert Mapped(ms, f)[..n] == Mapped(ms[..n], f);
      InsertMapped(Sort(ms[..n]), ms[n], f);
    }
  }

  lemma MembersMapped(ms: seq<Member<Value>>)
    ensures PrintMembers(ms) == Mapped(ms, v => Print(v))
    ensures CanonMembers(ms) == Mapped(ms, v => Canon(v))
  {}

  /** The text of an object's members, in key order. */
  lemma SortedText(ms: seq<Member<Value>>)
    ensures Sort(PrintMembers(ms)) == PrintMembers(Sort(ms))
  {
    MembersMapped(ms);
    MembersMapped(Sort(ms));
    SortMapped(ms, v => Print(v));
  }

  lemma SortedValues(ms: seq<Member<Value>>)
    ensures Sort(CanonMembers(ms)) == CanonMembers(Sort(ms))
  {
    MembersMapped(ms);
    MembersMapped(Sort(ms));
    SortMapped(ms, v => Canon(v));
  }

  lemma SortedTo<T>(ms: seq<Member<T>>, i: nat) returns (j: nat)
    requires i < |ms|
    ensures j < |ms| && Sort(ms)[j] == ms[i]
  {
    SortHas(ms);
    assert ms[i] in multiset(ms);
    assert ms[i] in Sort(ms);
    j :| 0 <= j < |ms| && Sort(ms)[j] == ms[i];
  }

  lemma SortedFrom<T>(ms: seq<Member<T>>, i: nat) returns (j: nat)
    requires i < |ms|
    ensures j < |ms| && Sort(ms)[i] == ms[j]
  {
    SortHas(ms);
    assert Sort(ms)[i] in multiset(Sort(ms));
    assert Sort(ms)[i] in ms;
    j :| 0 <= j < |ms| && ms[j] == Sort(ms)[i];
  }

  lemma SortedWellFormed(ms: seq<Member<Value>>, depth: nat, lim: Limits)
    requires DistinctKeys(ms) && forall i | 0 <= i < |ms| :: WellFormed(ms[i].value, depth, lim)
    ensures DistinctKeys(Sort(ms)) && forall i | 0 <= i < |ms| :: WellFormed(Sort(ms)[i].value, depth, lim)
  {
    SortInOrder(ms);
    forall i, j | 0 <= i < j < |ms|
      ensures Sort(ms)[i].key != Sort(ms)[j].key
    {
      KeyOrder(Sort(ms)[i].key, Sort(ms)[i].key, "");
    }
    forall i | 0 <= i < |ms| ensures WellFormed(Sort(ms)[i].value, depth, lim) { var j := SortedFrom(ms, i); }
  }

  // ---- print, then parse ----

  predicate Starts(c: char) { c in {'{', '[', '\"', 't', 'f', 'n', '-'} || Digit(c) }

  lemma FirstChar(v: Value, depth: nat, lim: Limits)
    requires WellFormed(v, depth, lim)
    ensures Print(v) != "" && Starts(Print(v)[0]) && Print(v)[0] != ']' && !Blank(Print(v)[0])
  {
    if v.Num? {
      assert Sits(v.raw, 0, v.raw);
      NumberBack(v.raw, 0, v.raw);
    }
  }

  lemma FollowPunctuation(s: string, pos: nat)
    requires At(s, pos, ',') || At(s, pos, ']') || At(s, pos, '}')
    ensures Follow(s, pos) && SkipBlanks(s, pos) == pos
  {}

  /** Wherever the canonical text of a well-formed value stands, the parser reads its canonical form there. */
  lemma {:induction false} PrintedParses(v: Value, s: string, pos: nat, depth: nat, lim: Limits)
    requires WellFormed(v, depth, lim) && Sits(s, pos, Print(v)) && Follow(s, pos + |Print(v)|)
    ensures ValueAt(s, pos, depth, lim) == Done(Canon(v), pos + |Print(v)|)
    decreases lim.maxDepth + 1 - depth, 1, 0
  {
    hide Sits, Follow, Lexeme, ValueAt, Quoted, Commas, PrintItems, PrintMembers, CanonItems, CanonMembers, Sort;
    match v
    case Num(raw) => NumberParses(raw, s, pos, depth, lim);
    case Str(t) => StringParses(t, s, pos, depth, lim);
    case Arr(items) => ArrayParses(items, s, pos, depth, lim);
    case Obj(ms) => ObjectParses(ms, s, pos, depth, lim);
    case _ => ScalarParses(v, s, pos, depth, lim);
  }

  lemma ScalarParses(v: Value, s: string, pos: nat, depth: nat, lim: Limits)
    requires (v.Null? || v.Bool?) && depth <= lim.maxDepth && Sits(s, pos, Print(v))
    ensures ValueAt(s, pos, depth, lim) == Done(v, pos + |Print(v)|)
  {
    SitsAt(s, pos, Print(v), 0);
    NotBlank(s, pos);
  }

  lemma NumberParses(raw: string, s: string, pos: nat, depth: nat, lim: Limits)
    requires depth <= lim.maxDepth && Lexeme(raw) && Sits(s, pos, raw) && Follow(s, pos + |raw|)
    ensures ValueAt(s, pos, depth, lim) == Done(Num(raw), pos + |raw|)
  {
    NumberBack(s, pos, raw);
    NotBlank(s, pos);
    assert s[pos..pos + |raw|] == raw;
    hide NumberEnd, ItemsFrom, MembersFrom, StringFrom, Literal, SkipBlanks;
  }

  lemma StringParses(t: string, s: string, pos: nat, depth: nat, lim: Limits)
    requires depth <= lim.maxDepth && Sits(s, pos, Quoted(t))
    ensures ValueAt(s, pos, depth, lim) == Done(Str(t), pos + |Quoted(t)|)
  {
    hide Quoted, StringFrom;
    QuotedBack(s, pos, t);
    NotBlank(s, pos);
  }

  lemma {:induction false} ArrayParses(items: seq<Value>, s: string, pos: nat, depth: nat, lim: Limits)
    requires WellFormed(Arr(items), depth, lim) && Sits(s, pos, Print(Arr(items)))
    ensures ValueAt(s, pos, depth, lim) == Done(Canon(Arr(items)), pos + |Print(Arr(items))|)
    decreases lim.maxDepth + 1 - depth, 0, |items| + 1
  {
    hide Canon, Print, Sits, Follow, ValueAt, ItemsFrom, PrintItems, CanonItems, Commas, WellFormed;
    var parts := PrintItems(items);
    var inner := Commas(parts) + "]";
    ArrayMeans(items, depth, lim);
    SitsSplit(s, pos, "[", inner);
    SitsAt(s, pos, "[", 0);
    SitsAt(s, pos + 1, inner, 0);
    if items == [] {
      assert inner == "]" by { assert parts == []; NoCommas(); }
      EmptyArrayParses(s, pos, depth, lim);
    } else {
      FirstChar(items[0], depth + 1, lim);
      CommasStarts(parts);
      ItemsParse(items, [], s, pos + 1, depth, lim);
      assert [] + CanonItems(items) == CanonItems(items);
      ArrayOpens(s, pos, depth, lim);
    }
  }

  lemma ArrayMeans(items: seq<Value>, depth: nat, lim: Limits)
    ensures WellFormed(Arr(items), depth, lim) ==>
              && depth <= lim.maxDepth && |items| <= lim.maxArray
              && forall i | 0 <= i < |items| :: WellFormed(items[i], depth + 1, lim)
    ensures Print(Arr(items)) == "[" + (Commas(PrintItems(items)) + "]")
    ensures Canon(Arr(items)) == Arr(CanonItems(items))
    ensures items == [] ==> Canon(Arr(items)) == Arr([])
  {}

  lemma EmptyArrayParses(s: string, pos: nat, depth: nat, lim: Limits)
    requires depth <= lim.maxDepth && At(s, pos, '[') && At(s, pos + 1, ']')
    ensures ValueAt(s, pos, depth, lim) == Done(Arr([]), pos + 2)
  {
    NotBlank(s, pos);
    NotBlank(s, pos + 1);
  }

  lemma ArrayOpens(s: string, pos: nat, depth: nat, lim: Limits)
    requires depth <= lim.maxDepth && At(s, pos, '[') && pos + 1 < |s| && !Blank(s[pos + 1]) && s[pos + 1] != ']'
    ensures ValueAt(s, pos, depth, lim) == ItemsFrom(s, pos + 1, depth, lim, [])
  {
    hide ItemsFrom, MembersFrom, StringFrom, NumberEnd, Literal;
    NotBlank(s, pos);
    NotBlank(s, pos + 1);
  }

  lemma CommasStarts(parts: seq<string>)
    requires parts != [] && parts[0] != ""
    ensures Commas(parts) != "" && Commas(parts)[0] == parts[0][0]
  {}

  lemma CommasSplit(parts: seq<string>, close: string)
    requires parts != []
    ensures Commas(parts) + close == parts[0] + (if |parts| == 1 then close else "," + (Commas(parts[1..]) + close))
  {}

  lemma ItemsStep(s: string, pos: nat, depth: nat, lim: Limits, done: seq<Value>, v: Value, p: nat)
    requires pos <= |s| && depth <= lim.maxDepth && |done| < lim.maxArray
    requires ValueAt(s, pos, depth + 1, lim) == Done(v, p)
    ensures At(s, p, ',') ==> ItemsFrom(s, pos, depth, lim, done) == ItemsFrom(s, p + 1, depth, lim, done + [v])
    ensures At(s, p, ']') ==> ItemsFrom(s, pos, depth, lim, done) == Done(Arr(done + [v]), p + 1)
  {
    hide ValueAt;
    if At(s, p, ',') || At(s, p, ']') { FollowPunctuation(s, p); }
  }

  lemma {:induction false} ItemsParse(items: seq<Value>, done: seq<Value>, s: string, pos: nat, depth: nat, lim: Limits)
    requires items != [] && |done| + |items| <= lim.maxArray && depth <= lim.maxDepth
    requires forall i | 0 <= i < |items| :: WellFormed(items[i], depth + 1, lim)
    requires Sits(s, pos, Commas(PrintItems(items)) + "]")
    ensures ItemsFrom(s, pos, depth, lim, done)
            == Done(Arr(done + CanonItems(items)), pos + |Commas(PrintItems(items))| + 1)
    decreases lim.maxDepth + 1 - depth, 0, |items|
  {
    hide Canon, Print, WellFormed, ValueAt, ItemsFrom, Sits, Follow, PrintItems, CanonItems, Commas;
    var parts, v := PrintItems(items), items[0];
    var tail := Commas(parts[1..]) + "]";
    var rest := if |items| == 1 then "]" else "," + tail;
    CommasSplit(parts, "]");
    SitsSplit(s, pos, Print(v), rest);
    var p := pos + |Print(v)|;
    SitsAt(s, p, rest, 0);
    FollowPunctuation(s, p);
    PrintedParses(v, s, pos, depth + 1, lim);
    SitsInside(s, pos, Print(v) + rest);
    ItemsStep(s, pos, depth, lim, done, Canon(v), p);
    if |items| > 1 {
      SitsSplit(s, p, ",", tail);
      assert parts[1..] == PrintItems(items[1..]);
      ItemsParse(items[1..], done + [Canon(v)], s, p + 1, depth, lim);
      assert done + [Canon(v)] + CanonItems(items[1..]) == done + CanonItems(items);
    } else {
      assert CanonItems(items) == [Canon(v)];
    }
  }

  lemma SitsInside(s: string, pos: nat, t: string)
    requires Sits(s, pos, t)
    ensures pos <= |s|
  {}

  lemma {:induction false} ObjectParses(ms: seq<Member<Value>>, s: string, pos: nat, depth: nat, lim: Limits)
    requires WellFormed(Obj(ms), depth, lim) && Sits(s, pos, Print(Obj(ms)))
    ensures ValueAt(s, pos, depth, lim) == Done(Canon(Obj(ms)), pos + |Print(Obj(ms))|)
    decreases lim.maxDepth + 1 - depth, 0, |ms| + 1
  {
    hide Canon, Print, Sits, Follow, ValueAt, MembersFrom, PrintMembers, CanonMembers, Commas, Sort, DistinctKeys,
         WellFormed, Pair;
    var sorted := Sort(ms);
    SortedText(ms);
    SortedValues(ms);
    ObjectMeans(ms, depth, lim);
    SortedWellFormed(ms, depth + 1, lim);
    var parts := Pairs(PrintMembers(sorted));
    var inner := Commas(parts) + "}";
    SitsSplit(s, pos, "{", inner);
    SitsAt(s, pos, "{", 0);
    SitsAt(s, pos + 1, inner, 0);
    if ms == [] {
      assert inner == "}" by { assert parts == []; NoCommas(); }
      EmptyObjectParses(s, pos, depth, lim);
    } else {
      PairStarts(PrintMembers(sorted)[0]);
      CommasStarts(parts);
      assert [] + sorted == sorted;
      MembersParse(sorted, [], s, pos + 1, depth, lim);
      assert [] + CanonMembers(sorted) == CanonMembers(sorted);
      ObjectOpens(s, pos, depth, lim);
    }
  }

  lemma ObjectMeans(ms: seq<Member<Value>>, depth: nat, lim: Limits)
    ensures WellFormed(Obj(ms), depth, lim) ==>
              && depth <= lim.maxDepth && |ms| <= lim.maxMembers && DistinctKeys(ms)
              && forall i | 0 <= i < |ms| :: WellFormed(ms[i].value, depth + 1, lim)
    ensures Print(Obj(ms)) == "{" + (Commas(Pairs(Sort(PrintMembers(ms)))) + "}")
    ensures Canon(Obj(ms)) == Obj(Sort(CanonMembers(ms)))
    ensures ms == [] ==> Canon(Obj(ms)) == Obj([])
  {}

  lemma PairStarts(x: Member<string>)
    ensures Pair(x) != "" && Pair(x)[0] == '"'
  {}

  lemma NoCommas()
    ensures Commas([]) == ""
  {}

  lemma EmptyObjectParses(s: string, pos: nat, depth: nat, lim: Limits)
    requires depth <= lim.maxDepth && At(s, pos, '{') && At(s, pos + 1, '}')
    ensures ValueAt(s, pos, depth, lim) == Done(Obj([]), pos + 2)
  {
    NotBlank(s, pos);
    NotBlank(s, pos + 1);
  }

  lemma ObjectOpens(s: string, pos: nat, depth: nat, lim: Limits)
    requires depth <= lim.maxDepth && At(s, pos, '{') && At(s, pos + 1, '"')
    ensures ValueAt(s, pos, depth, lim) == MembersFrom(s, pos + 1, depth, lim, [])
  {
    hide ItemsFrom, MembersFrom, StringFrom, NumberEnd, Literal;
    NotBlank(s, pos);
    NotBlank(s, pos + 1);
  }

  lemma KeyParses(key: string, s: string, pos: nat)
    requires Sits(s, pos, Quoted(key) + ":")
    ensures KeyFrom(s, pos) == Done(key, pos + |Quoted(key)| + 1)
  {
    hide Escape;
    SitsSplit(s, pos, Quoted(key), ":");
    QuotedBack(s, pos, key);
    NotBlank(s, pos);
    SitsAt(s, pos + |Quoted(key)|, ":", 0);
    NotBlank(s, pos + |Quoted(key)|);
  }

  lemma MembersStep(s: string, pos: nat, depth: nat, lim: Limits, done: seq<Member<Value>>, key: string, q: nat,
                    v: Value, p: nat)
    requires pos <= |s| && depth <= lim.maxDepth && |done| < lim.maxMembers && !HasKey(done, key)
    requires KeyFrom(s, pos) == Done(key, q) && ValueAt(s, q, depth + 1, lim) == Done(v, p)
    ensures At(s, p, ',') ==>
              MembersFrom(s, pos, depth, lim, done) == MembersFrom(s, p + 1, depth, lim, done + [Member(key, v)])
    ensures At(s, p, '}') ==> MembersFrom(s, pos, depth, lim, done) == Done(Obj(done + [Member(key, v)]), p + 1)
  {
    hide KeyFrom, ValueAt, HasKey;
    if At(s, p, ',') || At(s, p, '}') { FollowPunctuation(s, p); }
  }

  lemma {:induction false} MembersParse(ms: seq<Member<Value>>, done: seq<Member<Value>>, s: string, pos: nat,
                                        depth: nat, lim: Limits)
    requires ms != [] && |done| + |ms| <= lim.maxMembers && depth <= lim.maxDepth && DistinctKeys(done + ms)
    requires forall i | 0 <= i < |ms| :: WellFormed(ms[i].value, depth + 1, lim)
    requires Sits(s, pos, Commas(Pairs(PrintMembers(ms))) + "}")
    ensures MembersFrom(s, pos, depth, lim, done)
            == Done(Obj(done + CanonMembers(ms)), pos + |Commas(Pairs(PrintMembers(ms)))| + 1)
    decreases lim.maxDepth + 1 - depth, 0, |ms|
  {
    hide Canon, Print, WellFormed, ValueAt, MembersFrom, KeyFrom, Quoted, Sits, Follow, PrintMembers, CanonMembers,
         Commas, HasKey, DistinctKeys;
    var parts, m := Pairs(PrintMembers(ms)), ms[0];
    var tail := Commas(parts[1..]) + "}";
    var rest := if |ms| == 1 then "}" else "," + tail;
    CommasSplit(parts, "}");
    var key := Quoted(m.key) + ":";
    assert parts[0] == key + Print(m.value);
    assert Commas(parts) + "}" == key + (Print(m.value) + rest);
    SitsInside(s, pos, Commas(parts) + "}");
    SitsSplit(s, pos, key, Print(m.value) + rest);
    KeyParses(m.key, s, pos);
    var q := pos + |key|;
    SitsSplit(s, q, Print(m.value), rest);
    var p := q + |Print(m.value)|;
    SitsAt(s, p, rest, 0);
    FollowPunctuation(s, p);
    PrintedParses(m.value, s, q, depth + 1, lim);
    NewKey(done, ms);
    MembersStep(s, pos, depth, lim, done, m.key, q, Canon(m.value), p);
    var next := done + [Member(m.key, Canon(m.value))];
    if |ms| > 1 {
      SitsSplit(s, p, ",", tail);
      assert parts[1..] == Pairs(PrintMembers(ms[1..]));
      StillDistinct(done, ms, Member(m.key, Canon(m.value)));
      MembersParse(ms[1..], next, s, p + 1, depth, lim);
      assert next + CanonMembers(ms[1..]) == done + CanonMembers(ms);
    } else {
      assert CanonMembers(ms) == [Member(m.key, Canon(m.value))];
    }
  }

  lemma NewKey(done: seq<Member<Value>>, ms: seq<Member<Value>>)
    requires DistinctKeys(done + ms) && ms != []
    ensures !HasKey(done, ms[0].key)
  {
    assert (done + ms)[|done|] == ms[0];
    forall i | 0 <= i < |done| ensures done[i].key != ms[0].key { assert (done + ms)[i] == done[i]; }
  }

  lemma StillDistinct(done: seq<Member<Value>>, ms: seq<Member<Value>>, m: Member<Value>)
    requires DistinctKeys(done + ms) && ms != [] && m.key == ms[0].key
    ensures DistinctKeys(done + [m] + ms[1..])
  {
    var a, b := done + ms, done + [m] + ms[1..];
    assert |a| == |b| && forall i | 0 <= i < |a| :: a[i].key == b[i].key;
  }

  // ---- what the parser accepts ----

  /** The bytes of the printed items, each with the comma or bracket after it. */
  function ItemBytes(items: seq<Value>): nat {
    if items == [] then 0 else ItemBytes(items[..|items| - 1]) + Bytes(Print(items[|items| - 1])) + 1
  }

  function PairBytes(xs: seq<Member<string>>): nat {
    if xs == [] then 0 else PairBytes(xs[..|xs| - 1]) + Bytes(Pair(xs[|xs| - 1])) + 1
  }

  lemma {:induction false} CommasBytes(parts: seq<string>, x: string)
    ensures parts != [] ==> Bytes(Commas(parts + [x])) == Bytes(Commas(parts)) + 1 + Bytes(x)
    ensures parts == [] ==> Commas(parts + [x]) == x
  {
    if |parts| == 1 {
      assert (parts + [x])[1..] == [x];
      BytesAppend(parts[0] + ",", x);
      BytesAppend(parts[0], ",");
      OneChar(',');
    } else if |parts| > 1 {
      assert (parts + [x])[1..] == parts[1..] + [x];
      CommasBytes(parts[1..], x);
      BytesAppend(parts[0] + ",", Commas(parts[1..] + [x]));
      BytesAppend(parts[0] + ",", Commas(parts[1..]));
    }
  }

  lemma {:induction false} ItemsSize(items: seq<Value>)
    requires items != []
    ensures Bytes(Commas(PrintItems(items))) + 1 == ItemBytes(items)
  {
    hide Print, Commas;
    var n := |items| - 1;
    assert PrintItems(items) == PrintItems(items[..n]) + [Print(items[n])];
    CommasBytes(PrintItems(items[..n]), Print(items[n]));
    if n > 0 { ItemsSize(items[..n]); }
  }

  lemma {:induction false} PairsSize(xs: seq<Member<string>>)
    requires xs != []
    ensures Bytes(Commas(Pairs(xs))) + 1 == PairBytes(xs)
  {
    hide Pair, Commas;
    var n := |xs| - 1;
    assert Pairs(xs) == Pairs(xs[..n]) + [Pair(xs[n])];
    CommasBytes(Pairs(xs[..n]), Pair(xs[n]));
    if n > 0 { PairsSize(xs[..n]); }
  }

  lemma {:induction false} PairBytesCons(x: Member<string>, xs: seq<Member<string>>)
    ensures PairBytes([x] + xs) == Bytes(Pair(x)) + 1 + PairBytes(xs)
  {
    hide Pair;
    var all := [x] + xs;
    if xs == [] {
      assert all == [x] && all[..0] == [];
    } else {
      assert all[..|all| - 1] == [x] + xs[..|xs| - 1];
      PairBytesCons(x, xs[..|xs| - 1]);
    }
  }

  lemma {:induction false} InsertBytes(xs: seq<Member<string>>, x: Member<string>)
    ensures PairBytes(Insert(xs, x)) == PairBytes(xs) + Bytes(Pair(x)) + 1
  {
    hide Pair, KeyLess, PairBytes;
    if xs == [] {
      PairBytesCons(x, []);
      assert [x] + [] == [x];
    } else if KeyLess(x.key, xs[0].key) {
      PairBytesCons(x, xs);
    } else {
      InsertBytes(xs[1..], x);
      PairBytesCons(xs[0], xs[1..]);
      assert xs == [xs[0]] + xs[1..];
      PairBytesCons(xs[0], Insert(xs[1..], x));
    }
  }

  /** Sorting members leaves the size of their text. */
  lemma {:induction false} SortBytes(xs: seq<Member<string>>)
    ensures PairBytes(Sort(xs)) == PairBytes(xs)
  {
    hide Pair;
    if xs != [] {
      SortBytes(xs[..|xs| - 1]);
      InsertBytes(Sort(xs[..|xs| - 1]), xs[|xs| - 1]);
    } else {
      assert Sort(xs) == [];
    }
  }

  /** An accepted value is well formed, and its canonical text is no longer than what was read. */
  ghost predicate Faithful(r: Parsed<Value>, s: string, start: nat, depth: nat, lim: Limits) {
    r.Done? ==>
      start < r.next <= |s| && WellFormed(r.value, depth, lim) && Bytes(Print(r.value)) <= Bytes(s[start..r.next])
  }

  lemma BlanksBytes(s: string, start: nat, next: nat)
    requires start <= |s| && SkipBlanks(s, start) <= next <= |s|
    ensures Bytes(s[SkipBlanks(s, start)..next]) <= Bytes(s[start..next])
  {
    Pieces(s, start, SkipBlanks(s, start), next);
  }

  lemma LiteralFaithful(s: string, pos: nat, lit: string, v: Value, depth: nat, lim: Limits)
    requires pos <= |s| && lit != "" && Print(v) == lit && WellFormed(v, depth, lim)
    ensures Faithful(Literal(s, pos, lit, v), s, pos, depth, lim)
  {}

  lemma {:induction false} Accepted(s: string, start: nat, depth: nat, lim: Limits)
    requires start <= |s| && depth <= lim.maxDepth + 1
    ensures Faithful(ValueAt(s, start, depth, lim), s, start, depth, lim)
    decreases lim.maxDepth + 1 - depth, 1, 0
  {
    var r := ValueAt(s, start, depth, lim);
    if r.Done? {
      var pos := SkipBlanks(s, start);
      TokenFaithful(s, pos, depth, lim, r);
      BlanksBytes(s, start, r.next);
    }
  }

  /** The same from the first character of the value. */
  lemma {:induction false} TokenFaithful(s: string, pos: nat, depth: nat, lim: Limits, r: Parsed<Value>)
    requires pos < |s| && depth <= lim.maxDepth && SkipBlanks(s, pos) == pos
    requires r == ValueAt(s, pos, depth, lim) && r.Done?
    ensures Faithful(r, s, pos, depth, lim)
    decreases lim.maxDepth + 1 - depth, 0, |s| + 1
  {
    if s[pos] == '{' {
      ObjectFaithful(s, pos, depth, lim, r);
    } else if s[pos] == '[' {
      ArrayFaithful(s, pos, depth, lim, r);
    } else if s[pos] == '"' {
      QuotedSize(s, pos);
    } else if s[pos] == 't' {
      LiteralFaithful(s, pos, "true", Bool(true), depth, lim);
    } else if s[pos] == 'f' {
      LiteralFaithful(s, pos, "false", Bool(false), depth, lim);
    } else if s[pos] == 'n' {
      LiteralFaithful(s, pos, "null", Null, depth, lim);
    } else {
      NumberCut(s, pos);
    }
  }

  lemma {:induction false} ArrayFaithful(s: string, pos: nat, depth: nat, lim: Limits, r: Parsed<Value>)
    requires At(s, pos, '[') && depth <= lim.maxDepth && SkipBlanks(s, pos) == pos
    requires r == ValueAt(s, pos, depth, lim) && r.Done?
    ensures Faithful(r, s, pos, depth, lim)
    decreases lim.maxDepth + 1 - depth, 0, |s|
  {
    hide ItemsFrom, Commas, StringFrom, NumberEnd, Literal, ItemBytes, Bytes;
    var p := SkipBlanks(s, pos + 1);
    BlanksBytes(s, pos + 1, r.next);
    Pieces(s, pos, pos + 1, r.next);
    OneChar('[');
    assert s[pos..pos + 1] == "[";
    if At(s, p, ']') {
      AtLeastLength(s[p..r.next]);
      AsciiBytes("[]");
      assert Print(Arr([])) == "[]" by { NoCommas(); }
    } else {
      assert ItemBytes([]) == 0 by { NoItems(); }
      ItemsFaithful(s, p, depth, lim, []);
      ArraySize(r.value.items);
    }
  }

  lemma NoItems()
    ensures ItemBytes([]) == 0
  {}

  lemma ArraySize(items: seq<Value>)
    requires items != []
    ensures Bytes(Print(Arr(items))) == 1 + ItemBytes(items)
  {
    hide Commas, ItemBytes, Bytes;
    ItemsSize(items);
    var inner := Commas(PrintItems(items));
    BytesAppend("[" + inner, "]");
    BytesAppend("[", inner);
    OneChar('[');
    OneChar(']');
  }

  ghost predicate AllWellFormed(items: seq<Value>, depth: nat, lim: Limits) {
    forall i | 0 <= i < |items| :: WellFormed(items[i], depth, lim)
  }

  lemma ItemsCases(s: string, pos: nat, depth: nat, lim: Limits, done: seq<Value>)
    requires pos <= |s| && depth <= lim.maxDepth && ItemsFrom(s, pos, depth, lim, done).Done?
    ensures var v, r := ValueAt(s, pos, depth + 1, lim), ItemsFrom(s, pos, depth, lim, done);
            && v.Done? && |done| + 1 <= lim.maxArray
            && var p := SkipBlanks(s, v.next);
               && p < |s|
               && if s[p] == ',' then r == ItemsFrom(s, p + 1, depth, lim, done + [v.value])
                  else r == Done(Arr(done + [v.value]), p + 1)
  {
    hide ValueAt;
  }

  /** A piece, blanks, one character of punctuation, and the rest. */
  lemma PieceAndRest(s: string, pos: nat, mid: nat, next: nat)
    requires pos <= mid <= |s| && SkipBlanks(s, mid) < next <= |s|
    ensures Bytes(s[pos..mid]) + 1 + Bytes(s[SkipBlanks(s, mid) + 1..next]) <= Bytes(s[pos..next])
  {
    var p := SkipBlanks(s, mid);
    BlanksBytes(s, mid, next);
    Pieces(s, pos, mid, next);
    Pieces(s, p, p + 1, next);
    AtLeastLength(s[p..p + 1]);
  }

  lemma ItemBytesSnoc(items: seq<Value>, v: Value)
    ensures ItemBytes(items + [v]) == ItemBytes(items) + Bytes(Print(v)) + 1
  {
    hide Print;
    assert (items + [v])[..|items|] == items;
  }

  lemma ItemsAreWellFormed(items: seq<Value>, v: Value, depth: nat, lim: Limits)
    requires AllWellFormed(items, depth + 1, lim) && WellFormed(v, depth + 1, lim)
    ensures AllWellFormed(items + [v], depth + 1, lim)
    ensures |items| + 1 <= lim.maxArray && depth <= lim.maxDepth ==> WellFormed(Arr(items + [v]), depth, lim)
  {}

  lemma {:induction false} ItemsFaithful(s: string, pos: nat, depth: nat, lim: Limits, done: seq<Value>)
    requires pos <= |s| && depth <= lim.maxDepth && AllWellFormed(done, depth + 1, lim)
             && ItemsFrom(s, pos, depth, lim, done).Done?
    ensures var r := ItemsFrom(s, pos, depth, lim, done);
            && r.value.Arr? && r.value.items != [] && WellFormed(r.value, depth, lim) && pos < r.next <= |s|
            && ItemBytes(r.value.items) <= ItemBytes(done) + Bytes(s[pos..r.next])
    decreases lim.maxDepth + 1 - depth, 0, |s| - pos
  {
    hide Print, ValueAt, ItemsFrom, WellFormed, AllWellFormed, ItemBytes, Bytes;
    ItemsCases(s, pos, depth, lim, done);
    var v := ValueAt(s, pos, depth + 1, lim);
    var p, r := SkipBlanks(s, v.next), ItemsFrom(s, pos, depth, lim, done);
    Accepted(s, pos, depth + 1, lim);
    ItemBytesSnoc(done, v.value);
    ItemsAreWellFormed(done, v.value, depth, lim);
    if s[p] == ',' { ItemsFaithful(s, p + 1, depth, lim, done + [v.value]); }
    PieceAndRest(s, pos, v.next, r.next);
  }

  lemma {:induction false} ObjectFaithful(s: string, pos: nat, depth: nat, lim: Limits, r: Parsed<Value>)
    requires At(s, pos, '{') && depth <= lim.maxDepth && SkipBlanks(s, pos) == pos
    requires r == ValueAt(s, pos, depth, lim) && r.Done?
    ensures Faithful(r, s, pos, depth, lim)
    decreases lim.maxDepth + 1 - depth, 0, |s|
  {
    hide MembersFrom, Commas, Sort, StringFrom, NumberEnd, Literal, PairBytes, Bytes;
    var p := SkipBlanks(s, pos + 1);
    BlanksBytes(s, pos + 1, r.next);
    Pieces(s, pos, pos + 1, r.next);
    OneChar('{');
    assert s[pos..pos + 1] == "{";
    if At(s, p, '}') {
      AtLeastLength(s[p..r.next]);
      AsciiBytes("{}");
      assert Print(Obj([])) == "{}" by { NoCommas(); }
    } else {
      assert PairBytes(PrintMembers([])) == 0 by { NoPairs(); }
      MembersFaithful(s, p, depth, lim, []);
      ObjectSize(r.value.members);
    }
  }

  lemma NoPairs()
    ensures PairBytes(PrintMembers([])) == 0
  {}

  lemma ObjectSize(ms: seq<Member<Value>>)
    requires ms != []
    ensures Bytes(Print(Obj(ms))) == 1 + PairBytes(PrintMembers(ms))
  {
    hide Commas, Sort, PairBytes, Bytes;
    var xs := PrintMembers(ms);
    SortBytes(xs);
    PairsSize(Sort(xs));
    var inner := Commas(Pairs(Sort(xs)));
    BytesAppend("{" + inner, "}");
    BytesAppend("{", inner);
    OneChar('{');
    OneChar('}');
  }

  ghost predicate MembersOk(ms: seq<Member<Value>>, depth: nat, lim: Limits) {
    DistinctKeys(ms) && forall i | 0 <= i < |ms| :: WellFormed(ms[i].value, depth, lim)
  }

  lemma KeySize(s: string, pos: nat)
    requires pos <= |s| && KeyFrom(s, pos).Done?
    ensures var k := KeyFrom(s, pos); Bytes(Quoted(k.value)) + 1 <= Bytes(s[pos..k.next])
  {
    var k, q := KeyFrom(s, pos), SkipBlanks(s, pos);
    var t := StringFrom(s, q + 1, "");
    QuotedSize(s, q);
    BlanksBytes(s, pos, k.next);
    Pieces(s, q, t.next, k.next);
    AtLeastLength(s[t.next..k.next]);
  }

  lemma DistinctGrows(ms: seq<Member<Value>>, m: Member<Value>)
    requires DistinctKeys(ms) && !HasKey(ms, m.key)
    ensures DistinctKeys(ms + [m])
  {}

  lemma MembersCases(s: string, pos: nat, depth: nat, lim: Limits, done: seq<Member<Value>>)
    requires pos <= |s| && depth <= lim.maxDepth && MembersFrom(s, pos, depth, lim, done).Done?
    ensures var key, r := KeyFrom(s, pos), MembersFrom(s, pos, depth, lim, done);
            && key.Done? && !HasKey(done, key.value) && |done| + 1 <= lim.maxMembers
            && var v := ValueAt(s, key.next, depth + 1, lim);
               && v.Done?
               && var p, next := SkipBlanks(s, v.next), done + [Member(key.value, v.value)];
                  && p < |s|
                  && if s[p] == ',' then r == MembersFrom(s, p + 1, depth, lim, next) else r == Done(Obj(next), p + 1)
  {
    hide ValueAt, KeyFrom, HasKey;
  }

  lemma MembersAreWellFormed(ms: seq<Member<Value>>, m: Member<Value>, depth: nat, lim: Limits)
    requires MembersOk(ms, depth + 1, lim) && !HasKey(ms, m.key) && WellFormed(m.value, depth + 1, lim)
    ensures MembersOk(ms + [m], depth + 1, lim)
    ensures |ms| + 1 <= lim.maxMembers && depth <= lim.maxDepth ==> WellFormed(Obj(ms + [m]), depth, lim)
  {
    DistinctGrows(ms, m);
    hide DistinctKeys, HasKey;
  }

  lemma {:induction false} MembersFaithful(s: string, pos: nat, depth: nat, lim: Limits, done: seq<Member<Value>>)
    requires pos <= |s| && depth <= lim.maxDepth && MembersOk(done, depth + 1, lim)
             && MembersFrom(s, pos, depth, lim, done).Done?
    ensures var r := MembersFrom(s, pos, depth, lim, done);
            && r.value.Obj? && r.value.members != [] && WellFormed(r.value, depth, lim) && pos < r.next <= |s|
            && PairBytes(PrintMembers(r.value.members)) <= PairBytes(PrintMembers(done)) + Bytes(s[pos..r.next])
    decreases lim.maxDepth + 1 - depth, 0, |s| - pos
  {
    hide Print, ValueAt, KeyFrom, Quoted, HasKey, MembersFrom, WellFormed, MembersOk, PairBytes, PrintMembers, Bytes;
    MembersCases(s, pos, depth, lim, done);
    var key := KeyFrom(s, pos);
    var v := ValueAt(s, key.next, depth + 1, lim);
    var p, r := SkipBlanks(s, v.next), MembersFrom(s, pos, depth, lim, done);
    var m := Member(key.value, v.value);
    Accepted(s, key.next, depth + 1, lim);
    KeySize(s, pos);
    PairBytesSnoc(done, m);
    MembersAreWellFormed(done, m, depth, lim);
    if s[p] == ',' { MembersFaithful(s, p + 1, depth, lim, done + [m]); }
    Pieces(s, pos, key.next, r.next);
    PieceAndRest(s, key.next, v.next, r.next);
  }

  lemma PairBytesSnoc(ms: seq<Member<Value>>, m: Member<Value>)
    ensures PairBytes(PrintMembers(ms + [m]))
            == PairBytes(PrintMembers(ms)) + Bytes(Quoted(m.key)) + 1 + Bytes(Print(m.value)) + 1
  {
    hide Print, Quoted;
    var x := Member(m.key, Print(m.value));
    assert PrintMembers(ms + [m]) == PrintMembers(ms) + [x];
    assert (PrintMembers(ms) + [x])[..|ms|] == PrintMembers(ms);
    BytesAppend(Quoted(m.key) + ":", Print(m.value));
    BytesAppend(Quoted(m.key), ":");
    OneChar(':');
  }
}
