/** The parser against the grammar: every document of the grammar is read as what it means, and whatever is read is a
    document of the grammar. */
module JsonReading {
  import opened Basics
  import opened Json
  import opened JsonParser
  import opened JsonPieces
  import opened JsonGrammar

  // ---- blanks ----

  lemma {:induction false} BlanksSkipped(s: string, pos: nat, w: string)
    requires Blanks(w) && Sits(s, pos, w) && (pos + |w| < |s| ==> !Blank(s[pos + |w|]))
    ensures SkipBlanks(s, pos) == pos + |w|
    decreases |w|
  {
    if w != "" {
      SitsAt(s, pos, w, 0);
      assert w == [w[0]] + w[1..];
      SitsSplit(s, pos, [w[0]], w[1..]);
      BlanksSkipped(s, pos + 1, w[1..]);
    }
  }

  lemma {:induction false} SkippedBlanks(s: string, pos: nat)
    requires pos <= |s|
    ensures var r := SkipBlanks(s, pos); Blanks(s[pos..r]) && (r < |s| ==> !Blank(s[r])) && SkipBlanks(s, r) == r
    decreases |s| - pos
  {
    if pos < |s| && Blank(s[pos]) {
      SkippedBlanks(s, pos + 1);
      var r := SkipBlanks(s, pos);
      assert s[pos..r] == [s[pos]] + s[pos + 1..r];
    }
  }

  /** A value may be looked for after the blanks before it. */
  lemma ValueAfterBlanks(s: string, pos: nat, depth: nat, lim: Limits)
    requires pos <= |s| && depth <= lim.maxDepth + 1
    ensures ValueAt(s, SkipBlanks(s, pos), depth, lim) == ValueAt(s, pos, depth, lim)
  {
    hide ItemsFrom, MembersFrom, StringFrom, NumberEnd, Literal;
    SkippedBlanks(s, pos);
  }

  lemma ItemsAfterBlanks(s: string, pos: nat, depth: nat, lim: Limits, items: seq<Value>)
    requires pos <= |s| && depth <= lim.maxDepth
    ensures ItemsFrom(s, SkipBlanks(s, pos), depth, lim, items) == ItemsFrom(s, pos, depth, lim, items)
  {
    hide ValueAt;
    ValueAfterBlanks(s, pos, depth + 1, lim);
  }

  lemma MembersAfterBlanks(s: string, pos: nat, depth: nat, lim: Limits, ms: seq<Member<Value>>)
    requires pos <= |s| && depth <= lim.maxDepth
    ensures MembersFrom(s, SkipBlanks(s, pos), depth, lim, ms) == MembersFrom(s, pos, depth, lim, ms)
  {
    hide ValueAt, StringFrom;
    SkippedBlanks(s, pos);
  }

  // ---- every document is read as what it means ----

  /** Where a value may end: before a blank, a comma, a closing bracket or the end of the text. */
  predicate Ends(s: string, pos: nat) {
    pos < |s| ==> Blank(s[pos]) || s[pos] == ',' || s[pos] == ']' || s[pos] == '}'
  }

  lemma FirstOf(t: Tree, depth: nat, lim: Limits)
    requires Grammatical(t, depth, lim)
    ensures Text(t) != "" && !Blank(Text(t)[0]) && Text(t)[0] != ']'
  {
    if t.TNum? {
      Fringes(t.numeral);
      assert NumeralText(t.numeral)[0] == if t.numeral.negative then '-' else t.numeral.integer[0];
    }
  }

  lemma NumberReads(n: Numeral, s: string, pos: nat, depth: nat, lim: Limits)
    requires Sound(n) && depth <= lim.maxDepth && Sits(s, pos, NumeralText(n)) && Ends(s, pos + |NumeralText(n)|)
    ensures ValueAt(s, pos, depth, lim) == Done(Num(NumeralText(n)), pos + |NumeralText(n)|)
  {
    hide Sound, NumeralText, NumberEnd;
    NumeralIsLexeme(n);
    NumberBack(s, pos, NumeralText(n));
    NotBlank(s, pos);
  }

  lemma QuotesRead(s: string, pos: nat, cs: seq<Spelled>)
    requires AllSpelled(cs) && Sits(s, pos, Quotes(cs))
    ensures At(s, pos, '\"') && StringFrom(s, pos + 1, "") == Done(Said(cs), pos + |Quotes(cs)|)
  {
    hide AllSpelled, StringFrom;
    SitsSplit(s, pos, "\"", Body(cs) + "\"");
    SitsAt(s, pos, "\"", 0);
    BodyReads(s, pos + 1, cs, "");
    assert "" + Said(cs) == Said(cs);
  }

  lemma StringReads(body: seq<Spelled>, s: string, pos: nat, depth: nat, lim: Limits)
    requires AllSpelled(body) && depth <= lim.maxDepth && Sits(s, pos, Quotes(body))
    ensures ValueAt(s, pos, depth, lim) == Done(Str(Said(body)), pos + |Quotes(body)|)
  {
    hide AllSpelled, StringFrom, Quotes;
    QuotesRead(s, pos, body);
    NotBlank(s, pos);
  }

  lemma WordReads(t: Tree, s: string, pos: nat, depth: nat, lim: Limits)
    requires (t.TNull? || t.TBool?) && depth <= lim.maxDepth && Sits(s, pos, Text(t))
    ensures ValueAt(s, pos, depth, lim) == Done(Meaning(t), pos + |Text(t)|)
  {
    SitsAt(s, pos, Text(t), 0);
    NotBlank(s, pos);
  }

  lemma {:induction false} TreeReads(t: Tree, s: string, pos: nat, depth: nat, lim: Limits)
    requires Grammatical(t, depth, lim) && Sits(s, pos, Text(t)) && Ends(s, pos + |Text(t)|)
    ensures ValueAt(s, pos, depth, lim) == Done(Meaning(t), pos + |Text(t)|)
    decreases t
  {
    hide ValueAt, Sits, Ends;
    match t
    case TNum(n) => NumberReads(n, s, pos, depth, lim);
    case TStr(body) => StringReads(body, s, pos, depth, lim);
    case TArr(gap, items) =>
      if items == [] {
        EmptyArrayReads(gap, s, pos, depth, lim);
      } else {
        ArrayOpens(items, s, pos, depth, lim);
        ItemsRead(items, s, pos + 1, depth, lim, []);
        assert [] + ItemsMeaning(items) == ItemsMeaning(items);
      }
    case TObj(gap, fields) =>
      if fields == [] {
        EmptyObjectReads(gap, s, pos, depth, lim);
      } else {
        ObjectOpens(fields, s, pos, depth, lim);
        assert [] + FieldsMeaning(fields) == FieldsMeaning(fields);
        FieldsRead(fields, s, pos + 1, depth, lim, []);
      }
    case _ => WordReads(t, s, pos, depth, lim);
  }

  /** After a bracket: the blanks before what comes next. */
  lemma BracketReads(s: string, pos: nat, open: string, gap: string, rest: string)
    requires |open| == 1 && !Blank(open[0]) && Blanks(gap) && rest != "" && !Blank(rest[0])
    requires Sits(s, pos, open + (gap + rest))
    ensures At(s, pos, open[0]) && SkipBlanks(s, pos) == pos && Sits(s, pos + 1, gap + rest)
    ensures SkipBlanks(s, pos + 1) == pos + 1 + |gap| && At(s, pos + 1 + |gap|, rest[0])
  {
    SitsSplit(s, pos, open, gap + rest);
    SitsSplit(s, pos + 1, gap, rest);
    SitsAt(s, pos, open, 0);
    SitsAt(s, pos + 1 + |gap|, rest, 0);
    NotBlank(s, pos);
    BlanksSkipped(s, pos + 1, gap);
  }

  lemma EmptyArrayReads(gap: string, s: string, pos: nat, depth: nat, lim: Limits)
    requires Blanks(gap) && depth <= lim.maxDepth && Sits(s, pos, "[" + (gap + "]"))
    ensures ValueAt(s, pos, depth, lim) == Done(Arr([]), pos + |gap| + 2)
  {
    hide Sits;
    BracketReads(s, pos, "[", gap, "]");
  }

  lemma EmptyObjectReads(gap: string, s: string, pos: nat, depth: nat, lim: Limits)
    requires Blanks(gap) && depth <= lim.maxDepth && Sits(s, pos, "{" + (gap + "}"))
    ensures ValueAt(s, pos, depth, lim) == Done(Obj([]), pos + |gap| + 2)
  {
    hide Sits;
    BracketReads(s, pos, "{", gap, "}");
  }

  lemma Associate(a: string, b: string, c: string)
    ensures (a + b) + c == a + (b + c)
  {}

  lemma ArrayOpens(items: seq<Item>, s: string, pos: nat, depth: nat, lim: Limits)
    requires items != [] && depth <= lim.maxDepth && FitsItem(items[0], depth + 1, lim)
    requires Sits(s, pos, "[" + ItemsText(items))
    ensures Sits(s, pos + 1, ItemsText(items))
    ensures ValueAt(s, pos, depth, lim) == ItemsFrom(s, pos + 1, depth, lim, [])
  {
    hide ItemsFrom, Grammatical, Sits, Text;
    var x := items[0];
    var rest := if |items| == 1 then "]" else "," + ItemsText(items[1..]);
    Associate(x.before, Text(x.tree) + x.after, rest);
    FirstOf(x.tree, depth + 1, lim);
    BracketReads(s, pos, "[", x.before, Text(x.tree) + x.after + rest);
    ItemsAfterBlanks(s, pos + 1, depth, lim, []);
  }

  /** One value with its blanks, before a comma, a closing bracket or the end. */
  lemma {:induction false} ItemReads(x: Item, s: string, pos: nat, depth: nat, lim: Limits)
    requires FitsItem(x, depth, lim) && depth <= lim.maxDepth + 1 && Sits(s, pos, ItemText(x))
    requires Stops(s, pos + |ItemText(x)|)
    ensures pos <= |s|
    ensures var v := ValueAt(s, pos, depth, lim);
            v.Done? && v.value == Meaning(x.tree) && SkipBlanks(s, v.next) == pos + |ItemText(x)|
    decreases x
  {
    hide Grammatical, ValueAt, Text, Meaning, SkipBlanks, Sits;
    SitsSplit(s, pos, x.before, Text(x.tree) + x.after);
    var p := pos + |x.before|;
    var q := p + |Text(x.tree)|;
    SitsSplit(s, p, Text(x.tree), x.after);
    FirstOf(x.tree, depth, lim);
    SitsAt(s, p, Text(x.tree), 0);
    if x.after != "" { SitsAt(s, q, x.after, 0); }
    TreeReads(x.tree, s, p, depth, lim);
    BlanksSkipped(s, pos, x.before);
    ValueAfterBlanks(s, pos, depth, lim);
    BlanksSkipped(s, q, x.after);
  }

  predicate Stops(s: string, pos: nat) { pos < |s| ==> s[pos] in {',', ']', '}'} }

  /** A value of an array read, and what follows it. */
  lemma ItemStands(s: string, pos: nat, depth: nat, lim: Limits, done: seq<Value>, e: nat)
    requires pos <= |s| && e < |s| && depth <= lim.maxDepth && |done| < lim.maxArray
    requires ValueAt(s, pos, depth + 1, lim).Done? && SkipBlanks(s, ValueAt(s, pos, depth + 1, lim).next) == e
    ensures var items := done + [ValueAt(s, pos, depth + 1, lim).value];
            && (s[e] == ',' ==> ItemsFrom(s, pos, depth, lim, done) == ItemsFrom(s, e + 1, depth, lim, items))
            && (s[e] == ']' ==> ItemsFrom(s, pos, depth, lim, done) == Done(Arr(items), e + 1))
  {
    hide ValueAt, SkipBlanks;
  }

  lemma {:induction false} ItemsRead(items: seq<Item>, s: string, pos: nat, depth: nat, lim: Limits, done: seq<Value>)
    requires items != [] && depth <= lim.maxDepth && |done| + |items| <= lim.maxArray
    requires forall i | 0 <= i < |items| :: FitsItem(items[i], depth + 1, lim)
    requires Sits(s, pos, ItemsText(items))
    ensures pos <= |s|
    ensures ItemsFrom(s, pos, depth, lim, done) == Done(Arr(done + ItemsMeaning(items)), pos + |ItemsText(items)|)
    decreases items
  {
    hide FitsItem, ValueAt, ItemsFrom, ItemText, Meaning, Sits, SkipBlanks;
    var x, t := items[0], ItemText(items[0]);
    var e := pos + |t|;
    if |items| == 1 {
      SitsSplit(s, pos, t, "]");
      SitsAt(s, e, "]", 0);
      ItemReads(x, s, pos, depth + 1, lim);
      ItemStands(s, pos, depth, lim, done, e);
      assert done + ItemsMeaning(items) == done + [Meaning(x.tree)];
    } else {
      var rest := items[1..];
      SitsSplit(s, pos, t, "," + ItemsText(rest));
      SitsSplit(s, e, ",", ItemsText(rest));
      SitsAt(s, e, ",", 0);
      ItemReads(x, s, pos, depth + 1, lim);
      ItemStands(s, pos, depth, lim, done, e);
      ItemsRead(rest, s, e + 1, depth, lim, done + [Meaning(x.tree)]);
      assert done + [Meaning(x.tree)] + ItemsMeaning(rest) == done + ItemsMeaning(items);
    }
  }

  // ---- objects ----

  lemma ObjectOpens(fields: seq<Field>, s: string, pos: nat, depth: nat, lim: Limits)
    requires fields != [] && depth <= lim.maxDepth && Blanks(fields[0].before)
    requires Sits(s, pos, "{" + FieldsText(fields))
    ensures Sits(s, pos + 1, FieldsText(fields))
    ensures ValueAt(s, pos, depth, lim) == MembersFrom(s, pos + 1, depth, lim, [])
  {
    hide MembersFrom, Sits, Body, ItemText;
    var x := fields[0];
    var rest := ItemText(x.item) + if |fields| == 1 then "}" else "," + FieldsText(fields[1..]);
    Associate(x.before, Quotes(x.key) + (x.between + ":"), rest);
    BracketReads(s, pos, "{", x.before, Quotes(x.key) + (x.between + ":") + rest);
    MembersAfterBlanks(s, pos + 1, depth, lim, []);
  }

  lemma KeyReads(x: Field, s: string, pos: nat)
    requires Blanks(x.before) && AllSpelled(x.key) && Blanks(x.between) && Sits(s, pos, KeyText(x))
    ensures pos <= |s| && KeyFrom(s, pos) == Done(Said(x.key), pos + |KeyText(x)|)
  {
    hide AllSpelled, StringFrom, Quotes, Sits, Blanks, Said;
    var q := pos + |x.before|;
    var r := q + |Quotes(x.key)|;
    SitsSplit(s, pos, x.before, Quotes(x.key) + (x.between + ":"));
    SitsSplit(s, q, Quotes(x.key), x.between + ":");
    SitsSplit(s, r, x.between, ":");
    SitsAt(s, r + |x.between|, ":", 0);
    QuotesRead(s, q, x.key);
    BlanksSkipped(s, pos, x.before);
    BlanksSkipped(s, r, x.between);
  }

  lemma KeyIsNew(ms: seq<Member<Value>>, rest: seq<Member<Value>>)
    requires rest != [] && DistinctKeys(ms + rest)
    ensures !HasKey(ms, rest[0].key)
  {
    assert (ms + rest)[|ms|] == rest[0];
    assert forall i | 0 <= i < |ms| :: (ms + rest)[i] == ms[i];
  }

  lemma {:induction false} FieldsRead(fields: seq<Field>, s: string, pos: nat, depth: nat, lim: Limits,
                                      ms: seq<Member<Value>>)
    requires fields != [] && depth <= lim.maxDepth && |ms| + |fields| <= lim.maxMembers
    requires forall i | 0 <= i < |fields| :: FitsField(fields[i], depth + 1, lim)
    requires DistinctKeys(ms + FieldsMeaning(fields)) && Sits(s, pos, FieldsText(fields))
    ensures pos <= |s|
    ensures MembersFrom(s, pos, depth, lim, ms)
            == Done(Obj(ms + FieldsMeaning(fields)), pos + |FieldsText(fields)|)
    decreases fields
  {
    hide FitsItem, ValueAt, ItemText, KeyText, Meaning, Sits, KeyFrom, HasKey, AllSpelled, Blanks, DistinctKeys;
    var x, t := fields[0], ItemText(fields[0].item);
    var p := pos + |KeyText(x)|;
    var m := Member(Said(x.key), Meaning(x.item.tree));
    KeyIsNew(ms, FieldsMeaning(fields));
    if |fields| == 1 {
      SitsSplit(s, pos, KeyText(x), t + "}");
      SitsSplit(s, p, t, "}");
      SitsAt(s, p + |t|, "}", 0);
      KeyReads(x, s, pos);
      ItemReads(x.item, s, p, depth + 1, lim);
      assert ms + FieldsMeaning(fields) == ms + [m];
    } else {
      var rest := fields[1..];
      SitsSplit(s, pos, KeyText(x), t + ("," + FieldsText(rest)));
      SitsSplit(s, p, t, "," + FieldsText(rest));
      SitsSplit(s, p + |t|, ",", FieldsText(rest));
      SitsAt(s, p + |t|, ",", 0);
      KeyReads(x, s, pos);
      ItemReads(x.item, s, p, depth + 1, lim);
      assert ms + [m] + FieldsMeaning(rest) == ms + FieldsMeaning(fields);
      FieldsRead(rest, s, p + |t| + 1, depth, lim, ms + [m]);
    }
  }

  // ---- whatever is read is a document ----

  lemma Cut(s: string, i: nat, j: nat, k: nat)
    requires i <= j <= k <= |s|
    ensures s[i..k] == s[i..j] + s[j..k]
  {}

  lemma TextOfQuotes(s: string, pos: nat) returns (cs: seq<Spelled>)
    requires At(s, pos, '\"') && StringFrom(s, pos + 1, "").Done?
    ensures var r := StringFrom(s, pos + 1, ""); AllSpelled(cs) && s[pos..r.next] == Quotes(cs) && r.value == Said(cs)
  {
    hide AllSpelled, StringFrom, Body;
    var n := StringFrom(s, pos + 1, "").next;
    cs := ReadBody(s, pos + 1, "");
    Cut(s, pos, pos + 1, n);
    assert s[pos..pos + 1] == "\"" && "" + Said(cs) == Said(cs);
  }

  /** What is read at `start` is some blanks and a tree. */
  lemma {:induction false} TreeRead(s: string, start: nat, depth: nat, lim: Limits) returns (w: string, t: Tree)
    requires start <= |s| && depth <= lim.maxDepth + 1 && ValueAt(s, start, depth, lim).Done?
    ensures var v := ValueAt(s, start, depth, lim);
            Blanks(w) && s[start..v.next] == w + Text(t) && Meaning(t) == v.value && Grammatical(t, depth, lim)
    decreases lim.maxDepth + 1 - depth, 1, 0
  {
    hide StringFrom, NumberEnd, Blanks, AllSpelled, Sound, NumeralText, Quotes, ItemsFrom, MembersFrom;
    var pos, v := SkipBlanks(s, start), ValueAt(s, start, depth, lim);
    SkippedBlanks(s, start);
    w := s[start..pos];
    Cut(s, start, pos, v.next);
    if s[pos] == '{' {
      t := ObjectRead(s, pos, depth, lim);
    } else if s[pos] == '[' {
      t := ArrayRead(s, pos, depth, lim);
    } else if s[pos] == '\"' {
      var body := TextOfQuotes(s, pos);
      t := TStr(body);
    } else if s[pos] == 't' {
      t := TBool(true);
    } else if s[pos] == 'f' {
      t := TBool(false);
    } else if s[pos] == 'n' {
      t := TNull;
    } else {
      NumberCut(s, pos);
      var n := LexemeIsNumeral(s[pos..v.next]);
      t := TNum(n);
    }
  }

  lemma {:induction false} ArrayRead(s: string, pos: nat, depth: nat, lim: Limits) returns (t: Tree)
    requires depth <= lim.maxDepth && At(s, pos, '[') && SkipBlanks(s, pos) == pos && ValueAt(s, pos, depth, lim).Done?
    ensures var v := ValueAt(s, pos, depth, lim);
            s[pos..v.next] == Text(t) && Meaning(t) == v.value && Grammatical(t, depth, lim)
    decreases lim.maxDepth + 1 - depth, 0, |s| + 2
  {
    hide ItemsFrom, Blanks;
    var p, v := SkipBlanks(s, pos + 1), ValueAt(s, pos, depth, lim);
    Cut(s, pos, pos + 1, v.next);
    assert s[pos..pos + 1] == "[";
    SkippedBlanks(s, pos + 1);
    if At(s, p, ']') {
      t := TArr(s[pos + 1..p], []);
      Cut(s, pos + 1, p, v.next);
      assert s[p..p + 1] == "]";
    } else {
      ItemsAfterBlanks(s, pos + 1, depth, lim, []);
      var items := ItemsTree(s, pos + 1, depth, lim, []);
      t := TArr("", items);
      NoBlanks();
      assert [] + ItemsMeaning(items) == ItemsMeaning(items);
    }
  }

  lemma NoBlanks()
    ensures Blanks("")
  {}

  lemma {:induction false} ItemsTree(s: string, pos: nat, depth: nat, lim: Limits, done: seq<Value>)
    returns (items: seq<Item>)
    requires pos <= |s| && depth <= lim.maxDepth && ItemsFrom(s, pos, depth, lim, done).Done?
    ensures items != [] && |done| + |items| <= lim.maxArray
    ensures forall i | 0 <= i < |items| :: FitsItem(items[i], depth + 1, lim)
    ensures var r := ItemsFrom(s, pos, depth, lim, done);
            s[pos..r.next] == ItemsText(items) && r.value == Arr(done + ItemsMeaning(items))
    decreases lim.maxDepth + 1 - depth, 0, |s| - pos
  {
    hide ValueAt, Blanks, Text, Meaning, Grammatical, ItemsText, ItemsMeaning, ItemText;
    var v, r := ValueAt(s, pos, depth + 1, lim), ItemsFrom(s, pos, depth, lim, done);
    var w, t := TreeRead(s, pos, depth + 1, lim);
    var p := SkipBlanks(s, v.next);
    SkippedBlanks(s, v.next);
    var x := Item(w, t, s[v.next..p]);
    ItemIs(s, pos, v.next, p, w, t);
    Cut(s, pos, p, r.next);
    if At(s, p, ',') {
      var rest := ItemsTree(s, p + 1, depth, lim, done + [v.value]);
      items := [x] + rest;
      ItemsAre(x, rest);
      Cut(s, p, p + 1, r.next);
      assert s[p..p + 1] == ",";
      AfterOne(done, v.value, ItemsMeaning(rest));
    } else {
      items := [x];
      ItemsAre(x, []);
      assert s[p..p + 1] == "]";
    }
  }

  lemma ItemIs(s: string, pos: nat, q: nat, p: nat, w: string, t: Tree)
    requires pos <= q <= p <= |s| && s[pos..q] == w + Text(t)
    ensures s[pos..p] == ItemText(Item(w, t, s[q..p]))
  {
    hide Text;
    Cut(s, pos, q, p);
    Associate(w, Text(t), s[q..p]);
  }

  lemma ItemsAre(x: Item, rest: seq<Item>)
    ensures ItemsText([x] + rest) == ItemText(x) + if rest == [] then "]" else "," + ItemsText(rest)
    ensures ItemsMeaning([x] + rest) == [Meaning(x.tree)] + ItemsMeaning(rest)
    ensures [x] + [] == [x] && ItemsMeaning([x]) == [Meaning(x.tree)]
  {
    hide ItemText, Meaning;
    assert ([x] + rest)[1..] == rest;
  }

  lemma AfterOne<T>(a: seq<T>, x: T, b: seq<T>)
    ensures a + [x] + b == a + ([x] + b)
  {}

  lemma {:induction false} ObjectRead(s: string, pos: nat, depth: nat, lim: Limits) returns (t: Tree)
    requires depth <= lim.maxDepth && At(s, pos, '{') && SkipBlanks(s, pos) == pos && ValueAt(s, pos, depth, lim).Done?
    ensures var v := ValueAt(s, pos, depth, lim);
            s[pos..v.next] == Text(t) && Meaning(t) == v.value && Grammatical(t, depth, lim)
    decreases lim.maxDepth + 1 - depth, 0, |s| + 2
  {
    hide MembersFrom, Blanks;
    var p, v := SkipBlanks(s, pos + 1), ValueAt(s, pos, depth, lim);
    Cut(s, pos, pos + 1, v.next);
    assert s[pos..pos + 1] == "{";
    SkippedBlanks(s, pos + 1);
    if At(s, p, '}') {
      t := TObj(s[pos + 1..p], []);
      Cut(s, pos + 1, p, v.next);
      assert s[p..p + 1] == "}";
    } else {
      MembersAfterBlanks(s, pos + 1, depth, lim, []);
      var fields := FieldsTree(s, pos + 1, depth, lim, []);
      t := TObj("", fields);
      NoBlanks();
      assert [] + FieldsMeaning(fields) == FieldsMeaning(fields);
    }
  }

  /** A key and its colon, as they were spelled. */
  lemma KeyTree(s: string, pos: nat) returns (before: string, key: seq<Spelled>, between: string)
    requires pos <= |s| && KeyFrom(s, pos).Done?
    ensures Blanks(before) && AllSpelled(key) && Blanks(between)
    ensures var r := KeyFrom(s, pos);
            s[pos..r.next] == before + (Quotes(key) + (between + ":")) && r.value == Said(key)
  {
    hide AllSpelled, StringFrom, Quotes, Blanks;
    var q := SkipBlanks(s, pos);
    var k := StringFrom(s, q + 1, "");
    var c := SkipBlanks(s, k.next);
    SkippedBlanks(s, pos);
    SkippedBlanks(s, k.next);
    key := TextOfQuotes(s, q);
    before, between := s[pos..q], s[k.next..c];
    Cut(s, pos, q, c + 1);
    Cut(s, q, k.next, c + 1);
    Cut(s, k.next, c, c + 1);
    assert s[c..c + 1] == ":";
  }

  lemma StillDistinct(ms: seq<Member<Value>>, m: Member<Value>)
    requires DistinctKeys(ms) && !HasKey(ms, m.key)
    ensures DistinctKeys(ms + [m])
  {}

  /** What reading a member and going on from it comes to. */
  lemma MemberRead(s: string, pos: nat, depth: nat, lim: Limits, ms: seq<Member<Value>>)
    requires pos <= |s| && depth <= lim.maxDepth && MembersFrom(s, pos, depth, lim, ms).Done?
    ensures var k, r := KeyFrom(s, pos), MembersFrom(s, pos, depth, lim, ms);
            && k.Done? && |ms| < lim.maxMembers && !HasKey(ms, k.value)
            && var v := ValueAt(s, k.next, depth + 1, lim);
               && v.Done?
               && var p, next := SkipBlanks(s, v.next), ms + [Member(k.value, v.value)];
                  && p < |s|
                  && (s[p] == ',' ==> r == MembersFrom(s, p + 1, depth, lim, next))
                  && (s[p] != ',' ==> s[p] == '}' && r == Done(Obj(next), p + 1))
  {
    hide ValueAt, KeyFrom, HasKey, SkipBlanks;
  }

  lemma {:induction false} FieldsTree(s: string, pos: nat, depth: nat, lim: Limits, ms: seq<Member<Value>>)
    returns (fields: seq<Field>)
    requires pos <= |s| && depth <= lim.maxDepth && MembersFrom(s, pos, depth, lim, ms).Done? && DistinctKeys(ms)
    ensures fields != [] && |ms| + |fields| <= lim.maxMembers && DistinctKeys(ms + FieldsMeaning(fields))
    ensures forall i | 0 <= i < |fields| :: FitsField(fields[i], depth + 1, lim)
    ensures var r := MembersFrom(s, pos, depth, lim, ms);
            s[pos..r.next] == FieldsText(fields) && r.value == Obj(ms + FieldsMeaning(fields))
    decreases lim.maxDepth + 1 - depth, 0, |s| - pos
  {
    hide ValueAt, KeyFrom, Blanks, AllSpelled, Text, Meaning, Grammatical, DistinctKeys, HasKey, Quotes, FieldsText,
         FieldsMeaning, ItemText, KeyText, Said, FitsField, SkipBlanks, MembersFrom;
    MemberRead(s, pos, depth, lim, ms);
    var k, r := KeyFrom(s, pos), MembersFrom(s, pos, depth, lim, ms);
    var v := ValueAt(s, k.next, depth + 1, lim);
    var before, key, between := KeyTree(s, pos);
    var w, t := TreeRead(s, k.next, depth + 1, lim);
    var p := SkipBlanks(s, v.next);
    SkippedBlanks(s, v.next);
    var x := Field(before, key, between, Item(w, t, s[v.next..p]));
    var m := Member(k.value, v.value);
    ItemIs(s, k.next, v.next, p, w, t);
    FieldIs(x, depth + 1, lim);
    Cut(s, pos, k.next, r.next);
    Cut(s, k.next, p, r.next);
    StillDistinct(ms, m);
    if At(s, p, ',') {
      var rest := FieldsTree(s, p + 1, depth, lim, ms + [m]);
      fields := [x] + rest;
      FieldsAre(x, rest);
      Cut(s, p, p + 1, r.next);
      assert s[p..p + 1] == ",";
      AfterOne(ms, m, FieldsMeaning(rest));
    } else {
      fields := [x];
      FieldsAre(x, []);
      assert s[p..p + 1] == "}";
    }
  }

  lemma FieldIs(x: Field, depth: nat, lim: Limits)
    requires Blanks(x.before) && AllSpelled(x.key) && Blanks(x.between)
    requires Blanks(x.item.before) && Blanks(x.item.after) && Grammatical(x.item.tree, depth, lim)
    ensures FitsField(x, depth, lim) && KeyText(x) == x.before + (Quotes(x.key) + (x.between + ":"))
  {
    hide Blanks, AllSpelled, Grammatical, Quotes;
  }

  lemma FieldsAre(x: Field, rest: seq<Field>)
    ensures FieldsText([x] + rest)
            == KeyText(x) + (ItemText(x.item) + if rest == [] then "}" else "," + FieldsText(rest))
    ensures FieldsMeaning([x] + rest) == [Member(Said(x.key), Meaning(x.item.tree))] + FieldsMeaning(rest)
    ensures [x] + [] == [x] && FieldsMeaning([x]) == [Member(Said(x.key), Meaning(x.item.tree))]
  {
    hide ItemText, Meaning, KeyText, Said;
    assert ([x] + rest)[1..] == rest;
  }

  // ---- whole texts ----

  /** The text is a document within the limits that means v. */
  ghost predicate Document(s: string, v: Value, lim: Limits) {
    && Bytes(s) <= lim.maxBytes
    && exists w, t, z :: Blanks(w) && Blanks(z) && Grammatical(t, 0, lim) && s == w + (Text(t) + z) && Meaning(t) == v
  }

  lemma DocumentReads(s: string, w: string, t: Tree, z: string, lim: Limits)
    requires Blanks(w) && Blanks(z) && Grammatical(t, 0, lim) && s == w + (Text(t) + z) && Bytes(s) <= lim.maxBytes
    ensures Parse(s, lim) == Ok(Meaning(t))
  {
    hide Grammatical, Text, Meaning, ValueAt, Sits, Blanks, Bytes;
    var p := |w|;
    var q := p + |Text(t)|;
    Laid(s, w, t, z, lim);
    TreeReads(t, s, p, 0, lim);
    BlanksSkipped(s, 0, w);
    ValueAfterBlanks(s, 0, 0, lim);
    BlanksSkipped(s, q, z);
    NoMark(s, w, t, lim);
  }

  /** Where the parts of a document stand. */
  lemma SitsWhole(s: string)
    ensures Sits(s, 0, s)
  {}

  lemma Laid(s: string, w: string, t: Tree, z: string, lim: Limits)
    requires Blanks(w) && Blanks(z) && Grammatical(t, 0, lim) && s == w + (Text(t) + z)
    ensures var p, q := |w|, |w| + |Text(t)|;
            && Sits(s, 0, w) && Sits(s, p, Text(t)) && Sits(s, q, z) && q + |z| == |s|
            && p < |s| && !Blank(s[p]) && Ends(s, q) && w + Text(t) <= s
  {
    hide Grammatical, Text, Sits;
    var p := |w|;
    var q := p + |Text(t)|;
    SitsWhole(s);
    SitsSplit(s, 0, w, Text(t) + z);
    SitsSplit(s, p, Text(t), z);
    FirstOf(t, 0, lim);
    SitsAt(s, p, Text(t), 0);
    if z != "" { SitsAt(s, q, z, 0); }
    Associate(w, Text(t), z);
  }

  /** The text of a tree does not start with a byte order mark. */
  lemma NoMark(s: string, w: string, t: Tree, lim: Limits)
    requires Blanks(w) && Grammatical(t, 0, lim) && w + Text(t) <= s
    ensures s != "" && s[0] != BOM
  {
    FirstOf(t, 0, lim);
    if w != "" { assert s[0] == w[0]; } else { assert s[0] == Text(t)[0]; }
  }

  /** A text is accepted with a value exactly if it is a document of the grammar, within the limits, that means it. */
  lemma ParsesTheGrammar(s: string, v: Value, lim: Limits)
    ensures Parse(s, lim) == Ok(v) <==> Document(s, v, lim)
  {
    hide Grammatical, Text, Meaning, ValueAt, Blanks;
    if Document(s, v, lim) {
      var w, t, z :| Blanks(w) && Blanks(z) && Grammatical(t, 0, lim) && s == w + (Text(t) + z) && Meaning(t) == v;
      DocumentReads(s, w, t, z, lim);
    }
    if Parse(s, lim) == Ok(v) {
      var n := ValueAt(s, 0, 0, lim).next;
      var w, t := TreeRead(s, 0, 0, lim);
      SkippedBlanks(s, n);
      Cut(s, 0, n, |s|);
      Associate(w, Text(t), s[n..|s|]);
      assert s == w + (Text(t) + s[n..|s|]);
    }
  }

  /** Every spelling of a text, between quotation marks, is a document that means that text. */
  lemma SpellingsMean(cs: seq<Spelled>, lim: Limits)
    requires AllSpelled(cs) && Bytes(Quotes(cs)) <= lim.maxBytes
    ensures Parse(Quotes(cs), lim) == Ok(Str(Said(cs)))
  {
    hide AllSpelled, Quotes;
    NoBlanks();
    assert Quotes(cs) == "" + (Quotes(cs) + "");
    assert Text(TStr(cs)) == Quotes(cs) && Meaning(TStr(cs)) == Str(Said(cs));
    DocumentReads(Quotes(cs), "", TStr(cs), "", lim);
  }
}
